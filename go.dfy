/**
 * Values of the Go runtime and standard library that the logger passes
 * around without looking inside them.
 */
module Go {

  /** A Go reference, interface or function value that may be nil. */
  datatype Nullable<T> = Nil | Some(value: T)

  /** Go's 64-bit signed integer range, used for both `int` and `int64`. */
  const MinInt64: int := -0x8000_0000_0000_0000
  const MaxInt64: int := 0x7FFF_FFFF_FFFF_FFFF
  type Int64 = x: int | MinInt64 <= x <= MaxInt64

  /** An IEEE-754 double, kept as its bit pattern: the logger only stores it. */
  datatype Float64 = Float64(bits: bv64)

  /** A `*time.Location`, identified by its IANA name. */
  datatype Location = Location(name: string)

  /** A `time.Time`: nanoseconds since the Unix epoch and the location it displays in. */
  datatype Time = Time(unixNano: int, loc: Location)

  /** A `context.Context`; the logger only hands it to hooks. */
  datatype Context = Context(id: nat)

  /** A non-nil `error` value. */
  datatype Error = Error(message: string)

  /**
   * An `interface{}` value. A slice of interface values is kept apart
   * because `Printf` passes its argument slice as one such value.
   */
  datatype Dynamic = Value(repr: string) | Slice(items: seq<Dynamic>)

  /** An `io.Writer`: the process's standard output or some other stream. */
  datatype Output = Stdout | Stream(id: nat)
}
