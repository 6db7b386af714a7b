/** Go's value conventions that every other module shares: the `error`
    interface (nil or a message), the `(T, error)` result pair, 64-bit
    integers and bytes. */
module GoBase {

  /** A Go `error` value: `nil`, or an error carrying its message. */
  datatype Error = Nil | Failed(msg: string)

  /** A Go function result `(T, error)`. Unlike an Ok/Err sum, Go returns a
      value on the error path too (usually the zero value), and the model
      keeps it so that "returns 0 on error" can be stated. */
  datatype Ret<T> = Ret(val: T, err: Error) {
    predicate Ok() { err == Nil }
  }

  datatype Option<T> = None | Some(value: T)

  const MinInt64: int := -0x8000_0000_0000_0000
  const MaxInt64: int := 0x7FFF_FFFF_FFFF_FFFF

  /** Go's `int64` (and `int`, which is 64 bits wide on the platforms the
      service targets). */
  newtype int64 = x: int | MinInt64 <= x <= MaxInt64

  newtype byte = x: int | 0 <= x < 256
}
