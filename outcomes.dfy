/** Values that may be absent, and the two ways an awaited API call ends. */
module Outcomes {

  /** A TypeScript `T | null` (or an absent property). */
  datatype Option<T> = None | Some(value: T)

  /** How an awaited `apiService` call ends: it resolves with a value, or it
      rejects; `message` is `Some` when what was thrown is an `Error`. */
  datatype Reply<T> = Resolved(value: T) | Rejected(message: Option<string>)

  /** The text an `alert` shows for a rejected call: the error's own message
      when there is one, otherwise the handler's fixed fallback text. */
  function AlertText(message: Option<string>, fallback: string): (text: string)
    ensures message.None? ==> text == fallback
    ensures message.Some? ==> text == message.value
  {
    match message
    case Some(m) => m
    case None => fallback
  }
}
