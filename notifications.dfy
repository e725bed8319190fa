/** The snackbar notification every screen keeps in its state. */
module Notifications {
  import opened JsValues

  datatype Severity = Success | Info | Warning | Error

  datatype Notification = Notification(open: bool, message: string, severity: Severity)

  /** The initial `{ open: false, message: "", severity: "success" }`. */
  function Hidden(): Notification
  {
    Notification(false, "", Success)
  }

  /** `error.response?.data?.message || fallback`. `None` stands for a failure
      that carries no message string; an empty message falls back as well. */
  function ErrorMessage(serverMessage: Option<string>, fallback: string): (m: string)
    ensures serverMessage.Some? && serverMessage.value != "" ==> m == serverMessage.value
    ensures serverMessage.None? || serverMessage.value == "" ==> m == fallback
  {
    match serverMessage
    case Some(s) => if s != "" then s else fallback
    case None => fallback
  }
}
