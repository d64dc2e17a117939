/**
 * Go errors as values. `fmt.Errorf("prefix: %w", e)` keeps `e` inside the new error, so
 * `errors.Is` still finds a wrapped `context.Canceled`; the datatype keeps that structure.
 */
module Errors {

  datatype Error =
    | Canceled                          // context.Canceled, what ctx.Err() returns after cancel()
    | QueueClosed                       // the queue package's ErrQueueClosed sentinel
    | Failure(text: string)             // any other error, known only by its text
    | Wrapped(prefix: string, inner: Error)  // fmt.Errorf(prefix + "%w", inner)

  /** err.Error() */
  function Message(e: Error): string
  {
    match e
    case Canceled => "context canceled"
    case QueueClosed => "queue closed"
    case Failure(t) => t
    case Wrapped(p, inner) => p + Message(inner)
  }

  /** errors.Is(e, context.Canceled) */
  predicate IsCanceled(e: Error)
  {
    match e
    case Canceled => true
    case Wrapped(_, inner) => IsCanceled(inner)
    case _ => false
  }

  /** errors.Is(e, queue.ErrQueueClosed) */
  predicate IsQueueClosed(e: Error)
  {
    match e
    case QueueClosed => true
    case Wrapped(_, inner) => IsQueueClosed(inner)
    case _ => false
  }
}
