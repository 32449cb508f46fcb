/** Failure-compatible Option and Result types, and the exceptions the plugin's
    code can raise, shared by every module of the model. */
module Wrappers {

  datatype Option<+T> = None | Some(value: T)

  /** The .NET exceptions (and the one logged early return) the modelled code can end in. */
  datatype Error =
    | NullReference            // a member access on a Unity object that was never created
    | KeyNotFound(key: string) // Dictionary indexer on a missing key
    | DuplicateKey(key: string) // Dictionary.Add on a key already present
    | ArgumentOutOfRange       // String.Substring with a negative length
    | NotOnEmptyAtom           // Init refuses to run on an atom that is not "Empty"

  datatype Result<+R> = Success(value: R) | Failure(error: Error) {

    predicate IsFailure() {
      Failure?
    }

    function PropagateFailure<U>(): Result<U>
      requires Failure?
    {
      Failure(error)
    }

    function Extract(): R
      requires Success?
    {
      value
    }
  }
}
