/** The single point where a guard failure is raised
    (the file-local static class ThrowHelper of Requires/Requires.cs). */
module ThrowHelper {
  import opened Wrappers

  /** Raising a RequireException with `message` is modelled as returning
      the failure outcome that carries that message unchanged. */
  function Throw(message: string): (r: Outcome)
    ensures r == Fail(message)
  {
    Fail(message)
  }
}
