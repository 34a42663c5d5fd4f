/** Values shared by every state container of the mobile client. */
module Common {

  /** A JavaScript value that may be `null` or `undefined` (both are `None`). */
  datatype Option<+T> = None | Some(value: T)

  /** Server-assigned identifiers (users, conversations, messages, jobs, applications). */
  type Id = int

  /** One page of a paged listing, as the backend returns it. */
  datatype Page<T> = Page(content: seq<T>, totalPages: int, number: int)

  /** The body the backend sends with a failed request; its `message` may be missing. */
  datatype ErrorPayload = ErrorPayload(message: Option<string>)

  /**
   * The value every `rejected` case stores in `error`:
   * `action.payload ? action.payload.message : fallback`.
   * A missing payload gives the fixed fallback text; a present payload gives
   * its `message`, even when that message is itself missing.
   */
  function RejectedError(payload: Option<ErrorPayload>, fallback: string): (r: Option<string>)
    ensures payload.None? ==> r == Some(fallback)
    ensures payload.Some? ==> r == payload.value.message
    ensures r.None? ==> payload.Some?
  {
    match payload
    case None => Some(fallback)
    case Some(p) => p.message
  }
}
