/** Option and Outcome, shared by every conversion of the model. */
module Wrappers {
  datatype Option<+T> = None | Some(value: T)

  /**
   * Result of a step that may abort the guest: a Rust `panic!`, `unimplemented!`,
   * `unwrap` or `expect` on a failure, a Go `panic`, a JavaScript `throw`.
   */
  datatype Outcome<+T> = Ok(value: T) | Abort(reason: string)
  {
    predicate IsFailure()
    {
      Abort?
    }

    function PropagateFailure<U>(): Outcome<U>
      requires Abort?
    {
      Abort(reason)
    }

    function Extract(): T
      requires Ok?
    {
      value
    }
  }

  /** Error values returned (not raised) by the SDK entry points of a processor. */
  datatype SdkResult = Success | Failure(error: SdkError)

  datatype SdkError =
    | AlreadyShutdown
    | Other(message: string)
    | InternalFailure(message: string)
}
