/**
 * The decision part of `HttpCheckHandler.execute`: which HTTP method the probe
 * uses, and how the status code of the response becomes pass or fail.
 * Parsing the JSON payload and performing the request are outside the model:
 * the parsed fields and the exchange are inputs.
 */
module HttpCheckHandler {
  import opened Wrappers
  import opened JavaText
  import opened JobHandler

  const DEFAULT_METHOD := "GET"
  const FAILURE_PREFIX := "HTTP_CHECK failed: status="

  /** The fields the handler reads from its payload: a required `url` and an optional `method`. */
  datatype Payload = Payload(url: string, methodName: Option<string>)

  /** The request the handler sends. */
  datatype Request = Request(httpMethod: string, url: string)

  /** What the exchange yields: a response with its status code, or an exception the client raised. */
  datatype Exchange = Responded(status: int) | ClientFailed(message: Option<string>)

  /** The method named in the payload, or GET when there is none, upper-cased. */
  function RequestMethod(methodName: Option<string>): (m: string)
    ensures methodName.None? ==> m == DEFAULT_METHOD
    ensures methodName.Some? ==> |m| == |methodName.value|
    ensures methodName.Some? ==> forall i :: 0 <= i < |m| ==> m[i] == UpperChar(methodName.value[i])
    ensures ToUpperCase(m) == m
  {
    var chosen := methodName.GetOr(DEFAULT_METHOD);
    ToUpperCaseIdempotent(chosen);
    ToUpperCase(chosen)
  }

  function RequestFor(p: Payload): Request {
    Request(RequestMethod(p.methodName), p.url)
  }

  /** The status code a failure message reports, if the text is such a message. */
  function ReportedStatus(message: string): Option<int> {
    if |message| >= |FAILURE_PREFIX| && message[..|FAILURE_PREFIX|] == FAILURE_PREFIX
    then ParseInt(message[|FAILURE_PREFIX|..])
    else None
  }

  /**
   * The status check: no failure for a 2xx status, otherwise the message of the
   * exception the handler throws, which names the status.
   */
  function StatusFailure(status: int): (r: Option<string>)
    ensures r.None? <==> 200 <= status < 300
    ensures r.Some? ==> |r.value| > |FAILURE_PREFIX| && r.value[..|FAILURE_PREFIX|] == FAILURE_PREFIX
    ensures r.Some? ==> r.value == FAILURE_PREFIX + IntToString(status)
    ensures r.Some? ==> ReportedStatus(r.value) == Some(status)
  {
    if status < 200 || status >= 300 then
      var message := FAILURE_PREFIX + IntToString(status);
      assert message[|FAILURE_PREFIX|..] == IntToString(status);
      IntToStringRoundTrip(status);
      Some(message)
    else
      None
  }

  /** `execute`: send the request, then classify the response. */
  function Execute(p: Payload, send: Request -> Exchange): (o: Outcome)
    ensures send(RequestFor(p)).Responded? ==>
      (o == Returned <==> 200 <= send(RequestFor(p)).status < 300)
    ensures send(RequestFor(p)).Responded? && o.Threw? ==>
      o == Threw(Some(FAILURE_PREFIX + IntToString(send(RequestFor(p)).status)))
    ensures send(RequestFor(p)).Responded? && o.Threw? ==>
      o.message.Some? && ReportedStatus(o.message.value) == Some(send(RequestFor(p)).status)
    ensures send(RequestFor(p)).ClientFailed? ==> o == Threw(send(RequestFor(p)).message)
  {
    match send(RequestFor(p))
    case ClientFailed(message) => Threw(message)
    case Responded(status) =>
      match StatusFailure(status)
      case None => Returned
      case Some(message) => Threw(Some(message))
  }

  /** Two failing statuses give the same message only when they are the same status. */
  lemma FailureMessageIdentifiesStatus(s1: int, s2: int)
    requires StatusFailure(s1).Some? && StatusFailure(s1) == StatusFailure(s2)
    ensures s1 == s2
  {
  }
}
