/** Option and Result, used for the Go idiom of returning a value together with an error. */
module Wrappers {

  datatype Option<+T> = None | Some(value: T)

  /** A Go `(value, error)` pair: either a value and a nil error, or a non-nil error. */
  datatype Result<+T, +E> = Success(value: T) | Failure(error: E)

  /**
   * The text of `errors.Wrap(err, msg)` from github.com/pkg/errors: the wrapping message,
   * a colon and a space, then the text of the wrapped error.
   */
  function Wrap(err: string, msg: string): (r: string)
    ensures |r| == |msg| + 2 + |err|
    ensures r[..|msg|] == msg && r[|msg|..|msg| + 2] == ": " && r[|r| - |err|..] == err
  {
    msg + ": " + err
  }
}
