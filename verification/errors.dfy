/** The errors the wrapper can meet, with the text Go's `Error()` gives each. */
module Errors {
  import opened Wrappers
  import opened Text

  datatype Error =
    | ProgramNotDefined              // runCommand called with no arguments
    | RunFailed(cause: string)       // cmd.Run failed with something other than *exec.ExitError
    | Transport(cause: string)       // http.PostForm failed
    | Undecodable(cause: string)     // the response body was not the JSON envelope
    | RequestFailed(description: string)  // the envelope said ok = false
    | NoBotUsername                  // getMe succeeded but named no user

  const RequestFailedText := "error: telegram: request failed"

  /**
   * The error's text. A request failure's description can be read back out
   * of it, and the wrapper's own two messages are never taken for one.
   */
  function Message(e: Error): (m: string)
    ensures e.RequestFailed? ==> DescriptionOf(m) == Some(e.description)
    ensures e.ProgramNotDefined? || e.NoBotUsername? ==> DescriptionOf(m) == None
  {
    match e
    case ProgramNotDefined => "error: exec: program not defined"
    case RunFailed(cause) => cause
    case Transport(cause) => cause
    case Undecodable(cause) => cause
    case RequestFailed(d) =>
      if d != "" then
        assert RequestFailedText + ": " + d == (RequestFailedText + ": ") + d;
        ExpectLiteral(RequestFailedText + ": ", d);
        RequestFailedText + ": " + d
      else RequestFailedText
    case NoBotUsername =>
      var m := "error: telegram: failed to find bot username";
      assert m[..33][17] != (RequestFailedText + ": ")[17];
      m
  }

  /**
   * Reads the remote description back out of a request-failure message:
   * the empty description for the bare generic message, the text after
   * the `": "` otherwise.
   */
  function DescriptionOf(message: string): Option<string> {
    if message == RequestFailedText then Some("")
    else Expect(RequestFailedText + ": ", message)
  }
}
