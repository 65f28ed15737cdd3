/** Values every page handler deals in: optional values and the settled
    outcome of one awaited call to the backend. */
module Outcomes {

  datatype Option<+T> = None | Some(value: T)

  /** How an awaited axios call settles: `Ok` with the response's `data`,
      or `Err` carrying `err.response.data.error` when the server sent one
      (a network failure or a non-HTTP exception carries `None`). */
  datatype Outcome<+T> = Ok(payload: T) | Err(serverError: Option<string>)

  /** The message a handler shows for a failed call:
      `err.response?.data?.error || fallback`. JavaScript's `||` also
      falls back on an empty server message, since "" is falsy. */
  function ErrorText(serverError: Option<string>, fallback: string): (msg: string)
    ensures serverError.Some? && serverError.value != "" ==> msg == serverError.value
    ensures serverError.None? || serverError.value == "" ==> msg == fallback
    ensures fallback != "" ==> msg != ""
  {
    match serverError
    case Some(m) => if m != "" then m else fallback
    case None => fallback
  }
}
