/** Values the guards take and return.
    - Option<T> stands for a C# value that may be null.
    - Outcome is what a guard call produces: Ok when it returns normally, or
      Fail carrying the message of the RequireException it would throw.
 */
module Wrappers {

  /** A nullable value: None is null, Some(v) is a present value v. */
  datatype Option<+T> = None | Some(value: T)

  /** The result of one guard call. A successful call carries nothing: the
      success path builds no message. */
  datatype Outcome = Ok | Fail(errorMessage: string)
}
