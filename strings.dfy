/** Go's `strings.Split(s, sep)` for a one-character separator, with its
    inverse `strings.Join`. */
module Strings {

  /** `strings.Join(parts, string(sep))`. */
  function Join(parts: seq<string>, sep: char): string
    requires |parts| > 0
  {
    if |parts| == 1 then parts[0] else parts[0] + [sep] + Join(parts[1..], sep)
  }

  /** `strings.Split(s, string(sep))`: the pieces between separators, so
      there is always at least one piece (the empty text gives `[""]`),
      no piece contains the separator, and joining them gives `s` back.
      These three facts determine the result (see `SplitJoin`). */
  function Split(s: string, sep: char): (parts: seq<string>)
    ensures |parts| > 0
    ensures forall i | 0 <= i < |parts| :: sep !in parts[i]
    ensures Join(parts, sep) == s
    decreases |s|
  {
    if |s| == 0 then [""]
    else
      var rest := Split(s[1..], sep);
      if s[0] == sep then
        assert Join([""] + rest, sep) == [sep] + Join(rest, sep) by {
          assert ([""] + rest)[1..] == rest;
        }
        [""] + rest
      else
        var parts := [[s[0]] + rest[0]] + rest[1..];
        assert Join(parts, sep) == [s[0]] + Join(rest, sep) by {
          if |rest| > 1 {
            assert parts[1..] == rest[1..];
          }
        }
        parts
  }

  predicate NoSeparator(parts: seq<string>, sep: char)
  {
    forall i | 0 <= i < |parts| :: sep !in parts[i]
  }

  /** Split undoes Join on separator-free pieces. */
  lemma {:induction false} SplitJoin(parts: seq<string>, sep: char)
    requires |parts| > 0 && NoSeparator(parts, sep)
    ensures Split(Join(parts, sep), sep) == parts
    decreases |Join(parts, sep)|
  {
    var s := Join(parts, sep);
    if parts[0] != "" {
      var tail := [parts[0][1..]] + parts[1..];
      assert tail[1..] == parts[1..];
      assert forall i | 1 <= i < |tail| :: tail[i] == parts[i];
      assert Join(parts, sep) == [parts[0][0]] + Join(tail, sep) by {
        assert parts[0] == [parts[0][0]] + parts[0][1..];
      }
      SplitJoin(tail, sep);
      assert s[1..] == Join(tail, sep);
      assert parts == [[parts[0][0]] + tail[0]] + tail[1..];
    } else if |parts| > 1 {
      assert s == [sep] + Join(parts[1..], sep);
      assert NoSeparator(parts[1..], sep) by {
        forall i | 0 <= i < |parts[1..]| ensures sep !in parts[1..][i] {
          assert parts[1..][i] == parts[i + 1];
        }
      }
      SplitJoin(parts[1..], sep);
      assert s[1..] == Join(parts[1..], sep);
      assert parts == [""] + parts[1..];
    }
  }

  /** A text with exactly one separator splits into the two sides of it. */
  lemma SplitOnce(a: string, b: string, sep: char)
    requires sep !in a && sep !in b
    ensures Split(a + [sep] + b, sep) == [a, b]
  {
    assert [a, b][1..] == [b];
    SplitJoin([a, b], sep);
  }
}
