/**
 * Go error values as the request path sees them. Only two things about an
 * error matter to the code modelled here: whether its root cause
 * (`errors.Cause`) is the consent subsystem's abort sentinel, and whether it
 * was wrapped with a stack trace. Everything else is an opaque message.
 */
module Errors {

  /** The root cause of an error, as `errors.Cause` unwraps it. */
  datatype Cause =
    | AbortOAuth2Request   // consent.ErrAbortOAuth2Request
    | Other(message: string)

  /** An error value; `stacked` records an `errors.WithStack` wrapper. */
  datatype Error = Error(cause: Cause, stacked: bool)
  {
    /** `errors.Cause(err) == consent.ErrAbortOAuth2Request` */
    predicate IsAbort() { cause.AbortOAuth2Request? }
  }

  /** `errors.WithStack`: wraps the error and keeps its cause. */
  function WithStack(e: Error): (w: Error)
    ensures w.cause == e.cause && w.stacked
    ensures w.IsAbort() <==> e.IsAbort()
  {
    Error(e.cause, true)
  }
}
