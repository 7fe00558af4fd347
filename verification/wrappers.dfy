/** Option and result types shared by every module of the model. */
module Wrappers {

  datatype Option<+T> = None | Some(value: T) {
    function GetOr(default: T): T {
      match this
      case Some(v) => v
      case None => default
    }
  }

  /** An error as the server reports it: a kratos error carries an HTTP code
      and a reason string; a plain Go error carries only its name. */
  datatype Error =
    | Kratos(code: int, reason: string)
    | Plain(name: string)

  datatype Result<+T> = Ok(value: T) | Fail(error: Error) {
    predicate IsFailure() { Fail? }
    function PropagateFailure<U>(): Result<U>
      requires Fail?
    {
      Fail(error)
    }
    function Extract(): T
      requires Ok?
    {
      value
    }
  }

  /** The error (or its absence) of a Go function that returns only `error`. */
  datatype Outcome = Pass | Failed(error: Error) {
    predicate IsFailure() { Failed? }
    function PropagateFailure(): Outcome
      requires Failed?
    {
      this
    }
  }

  function BadRequest(reason: string): Error { Kratos(400, reason) }
  function Unauthorized(reason: string): Error { Kratos(401, reason) }
  function Forbidden(reason: string): Error { Kratos(403, reason) }
  function NotFound(reason: string): Error { Kratos(404, reason) }
  function Conflict(reason: string): Error { Kratos(409, reason) }
  function PreconditionFailed(reason: string): Error { Kratos(412, reason) }
  function TooManyRequests(reason: string): Error { Kratos(429, reason) }
  function InternalServer(reason: string): Error { Kratos(500, reason) }
}
