/**
 * The two message choices the script makes on failure: the text shown for a
 * recognition error, and the message a failed backend exchange carries.
 */
module Errors {
  import opened Wrappers
  import opened Text

  /** The recognition error codes that get a message of the script's own. */
  const RecErrorTexts: map<string, string> := map[
    "no-speech" := "Didn't hear anything.",
    "audio-capture" := "Microphone problem.",
    "not-allowed" := "Permission denied."
  ]

  /**
   * The message recognition `onerror` shows for error `code`. `message` is
   * the event's `message`; the empty string stands for a missing or empty
   * one, both of which `||` passes over.
   */
  function RecErrorMessage(code: string, message: string): (r: string)
    ensures code in RecErrorTexts ==> r == RecErrorTexts[code]
    ensures code !in RecErrorTexts ==> r == (if message != "" then message else code)
    ensures code != "" ==> r != ""
  {
    if code == "no-speech" then "Didn't hear anything."
    else if code == "audio-capture" then "Microphone problem."
    else if code == "not-allowed" then "Permission denied."
    else if message != "" then message
    else code
  }

  /**
   * How one backend exchange ended, as far as `sendToBackend` can see:
   * - NetFail: `fetch` or `response.json()` threw; `message` is the error's message;
   * - NotOk: a response with `ok` false; `bodyError` is `errorData.error` when
   *   the body parsed as JSON with a string `error`, None otherwise;
   * - Ok: an OK response whose body parsed; `reply` is `data.reply` when it is a string.
   */
  datatype Outcome =
    | NetFail(message: string)
    | NotOk(status: nat, bodyError: Option<string>)
    | Ok(reply: Option<string>)

  const EmptyReply := "Received empty reply from AI."
  const ServerErrorPrefix := "Server error ("

  /** `Server error (${response.status})`. */
  function ServerError(status: nat): string {
    ServerErrorPrefix + NatToDecimal(status) + ")"
  }

  /**
   * The message of the error `sendToBackend` raises for an exchange, or None
   * when the exchange produced a reply to record and speak.
   */
  function BackendError(o: Outcome): (r: Option<string>)
    ensures r.None? <==> o.Ok? && o.reply.Some? && o.reply.value != ""
    ensures o.NetFail? ==> r == Some(o.message)
    ensures o.NotOk? ==> r.Some? && r.value != ""
    ensures o.NotOk? && o.bodyError.Some? && o.bodyError.value != "" ==> r == o.bodyError
    ensures o.Ok? && r.Some? ==> r.value == EmptyReply
  {
    match o
    case NetFail(message) => Some(message)
    case NotOk(status, bodyError) =>
      var fallback := ServerError(status);
      Some(if bodyError.Some? && bodyError.value != "" then bodyError.value else fallback)
    case Ok(reply) =>
      if reply.Some? && reply.value != "" then None else Some(EmptyReply)
  }

  /**
   * When the body names no error, the message names the status, and the
   * status can be read back from it.
   */
  lemma ServerErrorNamesStatus(status: nat, bodyError: Option<string>)
    requires bodyError.None? || bodyError.value == ""
    ensures var r := BackendError(NotOk(status, bodyError));
      && r.Some?
      && StartsWith(r.value, ServerErrorPrefix)
      && r.value[|r.value| - 1] == ')'
      && var digits := r.value[|ServerErrorPrefix|..|r.value| - 1];
         (forall i :: 0 <= i < |digits| ==> IsDigit(digits[i])) && DecimalValue(digits) == status
  {
    var r := ServerError(status);
    assert r[|ServerErrorPrefix|..|r| - 1] == NatToDecimal(status);
    DecimalRoundTrip(status);
  }
}
