/** The part of Go's `strconv` package the service relies on: `ParseInt(s,
    10, 64)` (path ids), `Atoi` (token subjects) and `Itoa` (issuing token
    subjects). Decimal text is ASCII digits with an optional sign, as the
    package documents; base prefixes and underscores are only accepted by
    `ParseInt` with base 0, which the service never uses. */
module Strconv {
  import opened GoBase

  predicate IsDigit(c: char) { '0' <= c <= '9' }

  predicate AllDigits(s: string) { forall i | 0 <= i < |s| :: IsDigit(s[i]) }

  /** The value of a run of decimal digits, leading zeros allowed. */
  function DigitsValue(s: string): nat
    requires AllDigits(s)
  {
    if |s| == 0 then 0 else 10 * DigitsValue(s[..|s| - 1]) + (s[|s| - 1] as int - '0' as int)
  }

  function DigitChar(d: nat): (c: char)
    requires d < 10
    ensures IsDigit(c) && c as int - '0' as int == d
  {
    ('0' as int + d) as char
  }

  /** The shortest decimal spelling of `n`: no leading zero except for 0. */
  function Digits(n: nat): (s: string)
    ensures |s| > 0 && AllDigits(s)
    ensures |s| > 1 ==> s[0] != '0'
    ensures DigitsValue(s) == n
  {
    if n < 10 then [DigitChar(n)]
    else
      var s := Digits(n / 10) + [DigitChar(n % 10)];
      assert s[..|s| - 1] == Digits(n / 10);
      s
  }

  /** The digits after an optional leading `+` or `-`. */
  function Magnitude(s: string): (m: string)
    ensures |m| <= |s|
  {
    if |s| > 0 && (s[0] == '+' || s[0] == '-') then s[1..] else s
  }

  /** Text that `ParseInt(s, 10, _)` reads as a number, before the range
      check: an optional sign followed by at least one digit. */
  predicate IsDecimal(s: string) { |Magnitude(s)| > 0 && AllDigits(Magnitude(s)) }

  function DecimalValue(s: string): int
    requires IsDecimal(s)
  {
    var m: int := DigitsValue(Magnitude(s));
    if s[0] == '-' then -m else m
  }

  /** The shape shared by `ParseInt(s, 10, 64)` and `Atoi` (whose `int` is
      64 bits wide): a syntax error yields 0, an out-of-range value yields
      the nearest bound, both with an error. */
  function ParseDecimal(fn: string, s: string): (r: Ret<int64>)
    ensures r.Ok() <==> IsDecimal(s) && MinInt64 <= DecimalValue(s) <= MaxInt64
    ensures r.Ok() ==> r.val as int == DecimalValue(s)
    ensures !IsDecimal(s) ==> r.val == 0
    ensures IsDecimal(s) && DecimalValue(s) < MinInt64 ==> r.val == MinInt64 as int64
    ensures IsDecimal(s) && DecimalValue(s) > MaxInt64 ==> r.val == MaxInt64 as int64
    ensures !r.Ok() ==> r.err.Failed? && "strconv." + fn + ": parsing \"" + s + "\": " <= r.err.msg
  {
    if !IsDecimal(s) then Ret(0, Failed("strconv." + fn + ": parsing \"" + s + "\": invalid syntax"))
    else
      var v := DecimalValue(s);
      if v < MinInt64 then Ret(MinInt64 as int64, Failed("strconv." + fn + ": parsing \"" + s + "\": value out of range"))
      else if v > MaxInt64 then Ret(MaxInt64 as int64, Failed("strconv." + fn + ": parsing \"" + s + "\": value out of range"))
      else Ret(v as int64, Nil)
  }

  /** `strconv.ParseInt(s, 10, 64)`: succeeds exactly on decimal text whose
      value fits in 64 bits, and then returns that value; errors are
      reported as `*NumError`s of `ParseInt`. */
  function ParseInt(s: string): (r: Ret<int64>)
    ensures r.Ok() <==> IsDecimal(s) && MinInt64 <= DecimalValue(s) <= MaxInt64
    ensures r.Ok() ==> r.val as int == DecimalValue(s)
    ensures !r.Ok() ==> r.err.Failed? && "strconv.ParseInt: " <= r.err.msg
  {
    ParseDecimal("ParseInt", s)
  }

  /** `strconv.Atoi(s)` on a 64-bit platform: the same numbers as
      `ParseInt(s, 10, 64)`, with errors reported as `Atoi`'s. */
  function Atoi(s: string): (r: Ret<int64>)
    ensures r.Ok() <==> IsDecimal(s) && MinInt64 <= DecimalValue(s) <= MaxInt64
    ensures r.Ok() ==> r.val as int == DecimalValue(s)
    ensures !r.Ok() ==> r.err.Failed? && "strconv.Atoi: " <= r.err.msg
  {
    ParseDecimal("Atoi", s)
  }

  /** `strconv.Itoa` / `strconv.FormatInt(n, 10)`: the canonical decimal
      spelling of `n`. */
  function FormatInt(n: int): (s: string)
    ensures |s| > 0 && (s[0] == '-' || IsDigit(s[0]))
    ensures IsCanonical(s) && DecimalValue(s) == n
  {
    if n < 0 then
      var s := "-" + Digits(-n);
      assert Magnitude(s) == Digits(-n);
      assert DigitsValue("0") == 0;
      s
    else
      Digits(n)
  }

  /** Canonical decimal text: what `FormatInt` produces. No `+`, no leading
      zero, no `-0`. */
  predicate IsCanonical(s: string)
  {
    && IsDecimal(s)
    && s[0] != '+'
    && (|Magnitude(s)| > 1 ==> Magnitude(s)[0] != '0')
    && (s[0] == '-' ==> Magnitude(s) != "0")
  }

  /** Every `int64` survives formatting and parsing back, through either
      parser. */
  lemma ParseFormatRoundTrip(n: int64)
    ensures IsCanonical(FormatInt(n as int))
    ensures ParseInt(FormatInt(n as int)) == Ret(n, Nil)
    ensures Atoi(FormatInt(n as int)) == Ret(n, Nil)
  {
    var s := FormatInt(n as int);
    if n < 0 {
      assert Magnitude(s) == Digits(-(n as int));
    } else {
      assert Magnitude(s) == Digits(n as int);
    }
  }

  /** A run of digits without a leading zero has a nonzero value unless it
      is "0" itself. */
  lemma {:induction false} LeadingDigitPositive(d: string)
    requires |d| > 0 && AllDigits(d) && d[0] != '0'
    ensures DigitsValue(d) > 0
  {
    if |d| > 1 {
      LeadingDigitPositive(d[..|d| - 1]);
    }
  }

  /** Reading canonical digits and spelling the value again gives the same
      digits. */
  lemma {:induction false} DigitsOfValue(d: string)
    requires |d| > 0 && AllDigits(d)
    requires |d| > 1 ==> d[0] != '0'
    ensures Digits(DigitsValue(d)) == d
  {
    if |d| > 1 {
      var p := d[..|d| - 1];
      LeadingDigitPositive(p);
      DigitsOfValue(p);
      assert d == p + [d[|d| - 1]];
    }
  }

  /** The converse round trip: canonical text that parses is reproduced by
      `FormatInt`. */
  lemma FormatParseRoundTrip(s: string)
    requires IsCanonical(s) && ParseInt(s).Ok()
    ensures FormatInt(ParseInt(s).val as int) == s
  {
    var d := Magnitude(s);
    DigitsOfValue(d);
    if s[0] == '-' {
      if |d| > 1 { LeadingDigitPositive(d); }
      assert s == "-" + d;
    }
  }
}
