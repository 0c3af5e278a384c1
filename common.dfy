/**
 * Vocabulary shared by every component of the digest bot: results that carry
 * Go's `error` text, optional values, bytes, and the cancellable waits that a
 * `context.Context` interrupts.
 */
module Common {
  datatype Option<T> = None | Some(value: T)

  /** A Go `(value, error)` pair: the error is kept as its `Error()` text. */
  datatype Result<T> = Ok(value: T) | Err(error: string)

  newtype byte = b: int | 0 <= b < 256

  type Bytes = seq<byte>

  /**
   * The context a run is given. `AtWait(n)`: the context is cancelled while the
   * n-th cancellable wait of the call (counted from 0) is in progress, so that
   * wait and every later one return the context's error; `Never`: no wait is
   * ever interrupted.
   */
  datatype Cancel = Never | AtWait(first: nat)

  predicate Interrupts(c: Cancel, wait: nat)
  {
    c.AtWait? && c.first <= wait
  }

  /** `context.Canceled.Error()` */
  const ContextCanceled: string := "context canceled"
}
