/** Values shared by every part of the dashboard model: optional values, the
    settled result of a remote call, and the JavaScript truthiness rules the
    hooks apply to identifiers and error messages. */
module Base {

  /** `null` or a value. */
  datatype Option<+T> = None | Some(value: T)

  /** What an awaited backend call settles to: its payload, or a thrown error
      carrying `err.message` (the empty string when the error has no message). */
  datatype Outcome<+T> = Ok(payload: T) | Err(message: string)

  /** `err.message || fallback`: an empty (or missing) message gives way to the
      operation's fallback text. */
  function ErrorText(message: string, fallback: string): (r: string)
    ensures r == message || r == fallback
    ensures r == "" ==> message == "" && fallback == ""
    ensures message != "" ==> r == message
  {
    if message == "" then fallback else message
  }

  /** A connection id is truthy when it is neither `null` nor the empty string:
      `if (!connectionId) return` skips both. */
  predicate IsPresent(connectionId: Option<string>)
  {
    connectionId.Some? && connectionId.value != ""
  }

  /** The id a feed's polling interval runs under: the connection id when it is
      truthy, no interval otherwise. */
  function ActiveId(connectionId: Option<string>): (r: Option<string>)
    ensures r.Some? <==> IsPresent(connectionId)
    ensures r.Some? ==> r == connectionId
  {
    if IsPresent(connectionId) then connectionId else None
  }
}
