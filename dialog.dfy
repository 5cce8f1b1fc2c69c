// The application-wide dialog (`showAlert(message, type)`): what a
// component reports to the user after a check or a request.
module Dialog {
  datatype AlertKind = Success | Failure

  /** One message and its style. */
  datatype Alert = Alert(text: string, kind: AlertKind)
}
