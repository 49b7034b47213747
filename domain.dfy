/**
 * The records the runner reads and writes: jobs, attempts and outbox events,
 * and the JSON text of a `STATUS_CHANGED` event.
 */
module Domain {
  import opened Wrappers

  /** The canonical text of a job's UUID, as it is spliced into event payloads. */
  type JobId = string
  /** An opaque random identifier (`UUID.randomUUID()`) of an attempt or an event. */
  type Uuid = nat
  /** An opaque timestamp (`OffsetDateTime.now()`). */
  type Instant = int

  datatype JobStatus = Pending | Running | Success | Failed

  predicate IsTerminal(status: JobStatus) {
    status == Success || status == Failed
  }

  datatype Job = Job(
    jobType: string,
    payload: string,
    status: JobStatus,
    cancelRequested: bool,
    workerId: Option<string>,
    claimedAt: Option<Instant>)

  datatype AttemptStatus = AttemptRunning | AttemptSuccess | AttemptFailed

  datatype Attempt = Attempt(
    id: Uuid,
    jobId: JobId,
    attemptNumber: nat,
    workerId: string,
    status: AttemptStatus,
    errorCode: Option<string>,
    errorMessage: Option<string>)

  datatype Event = Event(id: Uuid, jobId: JobId, eventType: string, payload: string)

  const STATUS_CHANGED := "STATUS_CHANGED"

  /** The status a `STATUS_CHANGED` event announces; a failure carries its error code. */
  datatype Transition = ToRunning | ToSuccess | ToFailed(errorCode: string)

  const FAILED_HEAD := "FAILED\",\"errorCode\":\""

  function PayloadHead(jobId: JobId): string {
    "{\"jobId\":\"" + jobId + "\",\"to\":\""
  }

  function TargetText(t: Transition): string {
    match t
    case ToRunning => "RUNNING\"}"
    case ToSuccess => "SUCCESS\"}"
    case ToFailed(code) => FAILED_HEAD + code + "\"}"
  }

  /**
   * `{"jobId":"<id>","to":"<STATUS>"}`, with `,"errorCode":"<code>"` before the brace for a failure.
   * A consumer reading it for job `jobId` recovers exactly the transition written.
   */
  function StatusPayload(jobId: JobId, t: Transition): (r: string)
    ensures |r| > |PayloadHead(jobId)| && r[..|PayloadHead(jobId)|] == PayloadHead(jobId)
    ensures DecodeStatusPayload(jobId, r) == Some(t)
  {
    var head := PayloadHead(jobId);
    var r := head + TargetText(t);
    assert r[..|head|] == head;
    assert r[|head|..] == TargetText(t);
    TargetTextRoundTrip(t);
    r
  }

  function DecodeTarget(text: string): Option<Transition> {
    if text == "RUNNING\"}" then Some(ToRunning)
    else if text == "SUCCESS\"}" then Some(ToSuccess)
    else if |text| >= |FAILED_HEAD| + 2 && text[..|FAILED_HEAD|] == FAILED_HEAD && text[|text| - 2..] == "\"}"
    then Some(ToFailed(text[|FAILED_HEAD|..|text| - 2]))
    else None
  }

  /** What a downstream consumer reads from a payload about job `jobId`. */
  function DecodeStatusPayload(jobId: JobId, payload: string): Option<Transition> {
    var head := PayloadHead(jobId);
    if |payload| >= |head| && payload[..|head|] == head then DecodeTarget(payload[|head|..]) else None
  }

  /** The part after `"to":"` decodes to the transition it was written from. */
  lemma TargetTextRoundTrip(t: Transition)
    ensures DecodeTarget(TargetText(t)) == Some(t)
  {
    var text := TargetText(t);
    if t.ToFailed? {
      assert text[0] == 'F';
      assert text[..|FAILED_HEAD|] == FAILED_HEAD;
      assert text[|text| - 2..] == "\"}";
      assert text[|FAILED_HEAD|..|text| - 2] == t.errorCode;
    }
  }

  /** Distinct transitions of one job have distinct payloads. */
  lemma StatusPayloadInjective(jobId: JobId, t1: Transition, t2: Transition)
    requires StatusPayload(jobId, t1) == StatusPayload(jobId, t2)
    ensures t1 == t2
  {
  }
}
