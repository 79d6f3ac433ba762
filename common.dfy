/** Shared vocabulary: optional values, the errors the runtime throws, and string joining. */
module Common {

  /** JavaScript's `undefined` on a property that may be absent. */
  datatype Option<T> = None | Some(value: T)

  /** The exceptions the runtime throws synchronously. */
  datatype Error =
    | MissingName         // "The provided operation is missing a name property!"
    | UnknownQuery        // TypeError("Unknown Query!")
    | PropertyOfUndefined // TypeError from reading a property of `undefined` (or calling a non-function)
    | ExpectedWhitespace  // "Expected Whitespace!"
    | UnknownAction       // the reducer's `throw new Error()`

  /** A value, or the exception that was thrown instead. */
  datatype Result<T> = Ok(value: T) | Err(error: Error)

  /** `Array.prototype.join(sep)` on an array of strings. */
  function Join(parts: seq<string>, sep: string): (r: string)
    ensures |parts| == 1 ==> r == parts[0]
  {
    if |parts| == 0 then ""
    else if |parts| == 1 then parts[0]
    else parts[0] + sep + Join(parts[1..], sep)
  }

  /** `join("")`: plain concatenation. */
  function Concat(parts: seq<string>): string
  {
    if |parts| == 0 then "" else Concat(parts[..|parts| - 1]) + parts[|parts| - 1]
  }
}
