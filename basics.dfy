/** Small value types shared by every module of the model. */
module Basics {

  /** A value that may be absent (JavaScript `undefined`/`null`). */
  datatype Option<+T> = None | Some(value: T)

  /** The outcome of an operation that can throw: a value or the error thrown. */
  datatype Result<+R, +E> = Success(value: R) | Failure(error: E)

  /** An uploaded file as the browser and the multipart parser see it. */
  datatype File = File(originalName: string, mimeType: string, content: seq<bv8>)

  /** JavaScript `\d` and `\D`: only the ten ASCII digits count as digits. */
  predicate IsDigit(c: char)
  {
    '0' <= c <= '9'
  }

  predicate AllDigits(s: string)
  {
    forall i :: 0 <= i < |s| ==> IsDigit(s[i])
  }
}
