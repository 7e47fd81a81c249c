/**
 * The few JavaScript value conventions the components rely on: optional values
 * (`undefined`/`null`), settled promises, thrown values, numbers that may be NaN,
 * and the clamping `slice` of strings and arrays.
 */
module JsValues {

  datatype Option<+T> = None | Some(value: T)

  /** The settled outcome of an awaited call: a value, or the value it threw. */
  datatype Result<+T> = Ok(value: T) | Err(thrown: Thrown)

  /**
   * A thrown value. An `Error` instance always carries a message string (possibly
   * empty); any other thrown value may or may not have a `message` property.
   */
  datatype Thrown = ErrorInstance(message: string) | OtherValue(messageProperty: Option<string>)

  /** The `message` property of a thrown value, `undefined` when it has none. */
  function MessageOf(t: Thrown): Option<string>
  {
    match t
    case ErrorInstance(m) => Some(m)
    case OtherValue(m) => m
  }

  /** A JavaScript number as produced by `parseFloat`/`parseInt`: NaN or a finite value. */
  datatype Num = NaN | Finite(value: real)

  /** `a < b` on numbers: false as soon as either side is NaN. */
  predicate Less(a: Num, b: Num)
  {
    a.Finite? && b.Finite? && a.value < b.value
  }

  /** `a <= b` on numbers: false as soon as either side is NaN. */
  predicate LessEq(a: Num, b: Num)
  {
    a.Finite? && b.Finite? && a.value <= b.value
  }

  /** Truthiness of an optional string: `undefined`, `null` and `""` are falsy. */
  predicate Truthy(s: Option<string>)
  {
    s.Some? && s.value != ""
  }

  /** The index `slice` uses for a relative position `i` in a sequence of length `len`. */
  function SliceIndex(i: int, len: nat): (r: nat)
    ensures r <= len
    ensures 0 <= i <= len ==> r == i
    ensures i < 0 && len + i >= 0 ==> r == len + i
  {
    if i < 0 then (if len + i < 0 then 0 else len + i)
    else if i > len then len
    else i
  }

  /** `s.slice(start, end)`: negative positions count from the end, all are clamped to `s`. */
  function Slice<T>(s: seq<T>, start: int, end: int): seq<T>
  {
    var a := SliceIndex(start, |s|);
    var b := SliceIndex(end, |s|);
    if a < b then s[a..b] else []
  }

  /** `s.slice(start)`. */
  function SliceFrom<T>(s: seq<T>, start: int): seq<T>
  {
    Slice(s, start, |s|)
  }

  /** The length `Array.from({length: n})` gives: a negative length counts as zero. */
  function ArrayFromLength(n: int): nat
  {
    if n < 0 then 0 else n
  }
}
