/** The fetch step (`getSalesforceData` in src/index.ts) over an abstract
    outcome of the HTTP request: what it resolves to and what it rejects with. */
module Retrieval {
  import opened Wrappers
  import opened Decimal

  /** What awaiting `response.text()` gives: the body text, or a rejection
      whose string form is `reason`. */
  datatype BodyText = Read(text: string) | ReadFailed(reason: string)

  /** A response as the script sees it. `streamShown` is how the runtime
      renders the body stream object `response.body` inside a template
      string; that rendering is not the body text. */
  datatype Response = Response(status: nat, statusText: string, streamShown: string, text: BodyText)

  /** What awaiting `fetch(url, …)` gives: a response, or a rejection (DNS,
      connection refused, …) whose string form is `reason`. */
  datatype FetchOutcome = Responded(response: Response) | NetworkError(reason: string)

  /** `response.ok`: the status is an ok status, 200 to 299 inclusive, as the
      Statuses section of the WHATWG Fetch Standard defines it. */
  predicate IsOkStatus(status: nat) {
    200 <= status <= 299
  }

  const RetrievalPrefix := "Unable to retrieve data from Salesforce: "
  const NonOkLead := "Non-OK API response from Salesforce: "

  /** Everything an error message for a non-OK response starts with, once the
      `catch` has wrapped the rendered `Error`. */
  const NonOkHeader := RetrievalPrefix + "Error: " + NonOkLead

  /** The message of the `Error` thrown for a non-OK response. */
  function NonOkMessage(response: Response): string {
    NonOkLead + DecimalString(response.status) + " " + response.statusText + ": " + response.streamShown
  }

  /** `${err}` for an `Error` object: its name, a colon and a space, then its
      message. */
  function ErrorString(message: string): string {
    "Error: " + message
  }

  /** The message of the `Error` that the `catch` block throws. */
  function Wrap(cause: string): string {
    RetrievalPrefix + cause
  }

  /** The request succeeded as far as the script is concerned. */
  predicate Retrievable(outcome: FetchOutcome) {
    outcome.Responded? && IsOkStatus(outcome.response.status) && outcome.response.text.Read?
  }

  /** What `getSalesforceData` resolves to or rejects with, given the outcome
      of its single request. The non-OK `throw` sits inside the `try`, so it is
      caught and wrapped like a network error or a failed body read. */
  function Retrieve(outcome: FetchOutcome): (r: Result<string>)
    ensures r.Success? <==> Retrievable(outcome)
    ensures r.Success? ==> r.value == outcome.response.text.text
    ensures r.Failure? ==> |RetrievalPrefix| <= |r.error| && r.error[..|RetrievalPrefix|] == RetrievalPrefix
  {
    match outcome
    case NetworkError(reason) => Failure(Wrap(reason))
    case Responded(response) =>
      if !IsOkStatus(response.status) then
        Failure(Wrap(ErrorString(NonOkMessage(response))))
      else
        match response.text
        case Read(text) => Success(text)
        case ReadFailed(reason) => Failure(Wrap(reason))
  }

  /** `t` occurs in `s` at index `k`. */
  predicate OccursAt(t: string, s: string, k: int) {
    0 <= k <= |s| - |t| && s[k..k + |t|] == t
  }

  /** `t` occurs somewhere in `s`. */
  ghost predicate IsInfix(t: string, s: string) {
    exists k :: OccursAt(t, s, k)
  }

  /** Reads the status code back out of a non-OK error message: the digits
      right after the fixed header. */
  function StatusInError(message: string): Option<nat> {
    if |NonOkHeader| <= |message| && message[..|NonOkHeader|] == NonOkHeader then
      var digits := LeadingDigits(message[|NonOkHeader|..]);
      if digits == [] then None else Some(ParseDecimal(digits))
    else
      None
  }

  /** A non-OK response makes the fetch step fail with a message built as
      header, status digits, then a space; so the status can be read back. */
  lemma NonOkStatusRecoverable(response: Response)
    requires !IsOkStatus(response.status)
    ensures Retrieve(Responded(response)).Failure?
    ensures StatusInError(Retrieve(Responded(response)).error) == Some(response.status)
  {
    var digits := DecimalString(response.status);
    var tail := " " + response.statusText + ": " + response.streamShown;
    var message := Retrieve(Responded(response)).error;
    assert message == NonOkHeader + (digits + tail);
    assert message[|NonOkHeader|..] == digits + tail;
    LeadingDigitsStopAtNonDigit(digits, tail);
    ParseDecimalString(response.status);
  }

  /** The message of a non-OK failure shows the numeric status followed by
      the status text. */
  lemma NonOkMentionsStatus(response: Response)
    requires !IsOkStatus(response.status)
    ensures IsInfix(DecimalString(response.status) + " " + response.statusText, Retrieve(Responded(response)).error)
  {
    var shown := DecimalString(response.status) + " " + response.statusText;
    var message := Retrieve(Responded(response)).error;
    assert message == NonOkHeader + shown + (": " + response.streamShown);
    assert OccursAt(shown, message, |NonOkHeader|);
  }

  /** A rejected request and a failed body read are reported with their cause
      right after the prefix, unaltered. */
  lemma FailureCauseFollowsPrefix(outcome: FetchOutcome)
    requires outcome.NetworkError? || (outcome.response.text.ReadFailed? && IsOkStatus(outcome.response.status))
    ensures Retrieve(outcome).error[|RetrievalPrefix|..] ==
              if outcome.NetworkError? then outcome.reason else outcome.response.text.reason
  {
  }

  /** The example of a missing resource: status 404, status text `Not Found`.
      The fetch step fails, its message shows `404 Not Found`, and 404 can be
      read back from it. */
  lemma NotFoundReported(streamShown: string, text: BodyText)
    ensures var r := Retrieve(Responded(Response(404, "Not Found", streamShown, text)));
            r.Failure? && IsInfix("404 Not Found", r.error) && StatusInError(r.error) == Some(404)
  {
    var response := Response(404, "Not Found", streamShown, text);
    assert DecimalString(404) == "404" by {
      assert DecimalString(4) == "4";
      assert DecimalString(40) == "40";
    }
    assert DecimalString(404) + " " + "Not Found" == "404 Not Found";
    NonOkMentionsStatus(response);
    NonOkStatusRecoverable(response);
  }
}
