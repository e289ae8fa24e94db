/** Failure-carrying values shared by every module of the model.

    The Python code signals failure by raising; the model returns the
    exception as a value instead, so that each contract can say which
    inputs raise and which do not. */
module Outcomes {

  datatype Option<+T> = None | Some(value: T) {
    /** `value` when present, otherwise `default` (Python's `d.get(k, default)`). */
    function GetOr(default: T): T {
      match this
      case Some(v) => v
      case None => default
    }
  }

  /** The Python exception kinds the modelled code raises or lets escape. */
  datatype Error =
    | KeyError(key: string)           // unknown registry, app or agent name
    | RuntimeError(message: string)   // wrapped failure of a remote operation
    | TransportError(route: string)   // a `requests` exception or `raise_for_status`
    | AssertionError(message: string) // a failed `assert`
    | ValueError(message: string)     // unparsable JSON or number
    | AttributeError(name: string)    // an attribute read that raises

  datatype Result<+T> = Ok(value: T) | Err(error: Error) {
    predicate IsFailure() { Err? }

    function PropagateFailure<U>(): Result<U>
      requires Err?
    {
      Err(error)
    }

    function Extract(): T
      requires Ok?
    {
      value
    }
  }

  /** A result that carries no value: the Python call returns None or raises. */
  datatype Outcome = Pass | Fail(error: Error) {
    predicate IsFailure() { Fail? }

    function PropagateFailure(): Outcome
      requires Fail?
    {
      this
    }
  }

  /** A task checker's `(score, reason)`. */
  datatype Verdict = Verdict(score: real, reason: string)
}
