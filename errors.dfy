/** Errors as the CLI sees them, and the policy `main` applies to the error
    that `run` returns: what goes to telemetry, what is shown, the exit code. */
module Errors {

  datatype Option<T> = None | Some(value: T)

  /** An error returned by `run`. `Readable` is a `util.ReadableError`, whose
      message is meant for the user (and may be empty: `ErrHelp`); anything
      else is `Unexpected`. */
  datatype CliError = Readable(message: string) | Unexpected(message: string)

  /** `ErrHelp`: a readable error with an empty message, returned after help
      has been printed. */
  const ERR_HELP: CliError := Readable("")

  /** Telemetry messages are cut to this many characters. */
  const TELEMETRY_LIMIT: nat := 255

  const GENERIC_MESSAGE: string :=
    "Unexpected error occurred. Please check the logs or run with --verbose for more details."

  datatype Telemetry = SuccessEvent | ErrorEvent(error: string)

  /** What one process run leaves behind: its exit code, the telemetry event
      and the message printed with `ui.Error` (None when nothing is printed). */
  datatype Report = Report(exitCode: int, event: Telemetry, shown: Option<string>)

  /** The telemetry message: at most TELEMETRY_LIMIT characters, the message
      itself when it is short enough, otherwise its first TELEMETRY_LIMIT
      characters. */
  function Truncate(message: string): (r: string)
    ensures |r| <= TELEMETRY_LIMIT
    ensures r <= message
    ensures r == message <==> |message| <= TELEMETRY_LIMIT
    ensures |message| > TELEMETRY_LIMIT ==> |r| == TELEMETRY_LIMIT
  {
    if |message| > TELEMETRY_LIMIT then message[..TELEMETRY_LIMIT] else message
  }

  /** The terminal message for an error: a readable error shows its own
      message unless that is empty; any other error shows the generic text. */
  function Displayed(e: CliError): (shown: Option<string>)
    ensures shown.Some? ==> shown.value != []
    ensures e.Readable? ==> (shown.Some? <==> e.message != "")
    ensures e.Readable? && shown.Some? ==> shown.value == e.message
    ensures e.Unexpected? ==> shown == Some(GENERIC_MESSAGE)
  {
    match e
    case Readable(msg) => if msg != "" then Some(msg) else None
    case Unexpected(_) => Some(GENERIC_MESSAGE)
  }

  /** `main`: success exits 0 with a success event; an error exits 1, sends
      its truncated message to telemetry and prints what `Displayed` says. */
  function MainReport(result: Option<CliError>): (r: Report)
    ensures result.None? <==> r.exitCode == 0
    ensures result.Some? ==> r.exitCode == 1 && r.event == ErrorEvent(Truncate(result.value.message))
    ensures result.None? ==> r.event == SuccessEvent && r.shown == None
  {
    match result
    case None => Report(0, SuccessEvent, None)
    case Some(e) => Report(1, ErrorEvent(Truncate(e.message)), Displayed(e))
  }

  /** Help is silent: after help has been rendered the process prints no
      further error line, yet still exits 1. */
  lemma HelpIsSilent()
    ensures MainReport(Some(ERR_HELP)) == Report(1, ErrorEvent(""), None)
  {
  }

  /** The detail of an unexpected error never reaches the terminal; the
      message shown depends only on the kind of error. */
  lemma UnexpectedDetailHidden(m1: string, m2: string)
    ensures MainReport(Some(Unexpected(m1))).shown == MainReport(Some(Unexpected(m2))).shown
    ensures MainReport(Some(Unexpected(m1))).shown == Some(GENERIC_MESSAGE)
  {
  }

  /** Everything the terminal shows for an error is non-empty, and every
      failing run reports a message of at most TELEMETRY_LIMIT characters
      that is a prefix of the error's own message. */
  lemma ReportBounds(e: CliError)
    ensures MainReport(Some(e)).shown.Some? ==> MainReport(Some(e)).shown.value != ""
    ensures |MainReport(Some(e)).event.error| <= TELEMETRY_LIMIT
    ensures MainReport(Some(e)).event.error <= e.message
  {
  }
}
