/**
  The two tiers of errors the bot distinguishes (errors.go): a user-facing
  `botError` that carries a ready-to-send message and is never retried, and every
  other Go `error` (transport, decoding, unexpected provider status), which is
  opaque to the dispatcher.
 */
module Errors {

  datatype Error = BotError(msg: string) | Internal

  /** retry-go's RetryIf in playMedia: everything except a botError is retried. */
  predicate Retryable(e: Error)
    ensures Retryable(e) <==> e == Internal
  {
    !e.BotError?
  }
}
