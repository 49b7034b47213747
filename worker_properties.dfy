/**
 * What one run of `runOne` guarantees, stated on `RunOneSpec`: the three ways
 * a run ends, that terminal jobs are left alone, that the cancellation flag has
 * no effect, and that the stores stay mutually consistent (every status change
 * of a job is matched by exactly one outbox event and one attempt).
 */
module WorkerProperties {
  import opened Wrappers
  import opened Domain
  import opened JobHandler
  import opened Worker
  import JavaText
  import HttpCheckHandler
  import BatchSimHandler

  /** An unregistered type fails the job with UNKNOWN_TYPE, whatever the handlers would have done. */
  lemma UnknownTypeRun(s: Stores, jobId: JobId, now: Instant, ids: FreshIds,
                       execute: (Handler, Job) -> Outcome, other: (Handler, Job) -> Outcome)
    requires Claimable(s.jobs, jobId) && s.jobs[jobId].jobType !in REGISTRY
    ensures var t := RunOneSpec(s, jobId, now, ids, execute);
      && t.jobs[jobId].status == Failed
      && t.attempts[|s.attempts|].status == AttemptFailed
      && t.attempts[|s.attempts|].errorCode == Some(UNKNOWN_TYPE)
      && t.attempts[|s.attempts|].errorMessage == Some("Unknown job type: " + s.jobs[jobId].jobType)
      && t.events[|s.events| + 1].payload == StatusPayload(jobId, ToFailed(UNKNOWN_TYPE))
      && t == RunOneSpec(s, jobId, now, ids, other)
  {
  }

  /** A handler that throws fails the job with EXEC_ERROR and the exception's message, verbatim. */
  lemma HandlerThrewRun(s: Stores, jobId: JobId, now: Instant, ids: FreshIds,
                        execute: (Handler, Job) -> Outcome, message: Option<string>)
    requires Claimable(s.jobs, jobId) && s.jobs[jobId].jobType in REGISTRY
    requires execute(REGISTRY[s.jobs[jobId].jobType], ClaimedJob(s.jobs[jobId], WORKER_ID, now)) == Threw(message)
    ensures var t := RunOneSpec(s, jobId, now, ids, execute);
      && t.jobs[jobId].status == Failed
      && t.attempts[|s.attempts|].status == AttemptFailed
      && t.attempts[|s.attempts|].errorCode == Some(EXEC_ERROR)
      && t.attempts[|s.attempts|].errorMessage == message
      && t.events[|s.events| + 1].payload == StatusPayload(jobId, ToFailed(EXEC_ERROR))
  {
  }

  /** A handler that returns makes the job and the attempt SUCCESS. */
  lemma HandlerReturnedRun(s: Stores, jobId: JobId, now: Instant, ids: FreshIds, execute: (Handler, Job) -> Outcome)
    requires Claimable(s.jobs, jobId) && s.jobs[jobId].jobType in REGISTRY
    requires execute(REGISTRY[s.jobs[jobId].jobType], ClaimedJob(s.jobs[jobId], WORKER_ID, now)) == Returned
    ensures var t := RunOneSpec(s, jobId, now, ids, execute);
      && t.jobs[jobId].status == Success
      && t.attempts[|s.attempts|].status == AttemptSuccess
      && t.attempts[|s.attempts|].errorCode == None
      && t.attempts[|s.attempts|].errorMessage == None
      && t.events[|s.events| + 1].payload == StatusPayload(jobId, ToSuccess)
  {
  }

  /** A job that is already SUCCESS or FAILED is never touched again. */
  lemma TerminalJobUntouched(s: Stores, jobId: JobId, now: Instant, ids: FreshIds, execute: (Handler, Job) -> Outcome)
    requires jobId in s.jobs && IsTerminal(s.jobs[jobId].status)
    ensures RunOneSpec(s, jobId, now, ids, execute) == s
  {
  }

  /** Running a job a second time writes nothing more: at most one execution per job. */
  lemma RunOneTwice(s: Stores, jobId: JobId, now1: Instant, ids1: FreshIds, execute1: (Handler, Job) -> Outcome,
                    now2: Instant, ids2: FreshIds, execute2: (Handler, Job) -> Outcome)
    ensures var t := RunOneSpec(s, jobId, now1, ids1, execute1);
      RunOneSpec(t, jobId, now2, ids2, execute2) == t
  {
    var t := RunOneSpec(s, jobId, now1, ids1, execute1);
    if Claimable(s.jobs, jobId) {
      TerminalJobUntouched(t, jobId, now2, ids2, execute2);
    }
  }

  function WithCancelFlag(s: Stores, jobId: JobId, flag: bool): Stores
    requires jobId in s.jobs
  {
    s.(jobs := s.jobs[jobId := s.jobs[jobId].(cancelRequested := flag)])
  }

  /** The `cancelRequested` flag is read but changes nothing about a run with the reference handlers. */
  lemma CancelFlagIgnored(s: Stores, jobId: JobId, now: Instant, ids: FreshIds, flag: bool,
                          parse: string -> ParsedPayload,
                          send: HttpCheckHandler.Request -> HttpCheckHandler.Exchange)
    requires jobId in s.jobs
    ensures var execute := Dispatch(parse, send);
      RunOneSpec(WithCancelFlag(s, jobId, flag), jobId, now, ids, execute)
        == WithCancelFlag(RunOneSpec(s, jobId, now, ids, execute), jobId, flag)
  {
    if Claimable(s.jobs, jobId) {
      var execute := Dispatch(parse, send);
      DecideIgnoresCancelFlag(ClaimedJob(s.jobs[jobId], WORKER_ID, now), flag, parse, send);
      CancelFlagIgnoredOnClaim(s, jobId, now, ids, flag, execute);
    }
  }

  /** A claimed run whose verdict does not depend on the flag commutes with setting the flag. */
  lemma CancelFlagIgnoredOnClaim(s: Stores, jobId: JobId, now: Instant, ids: FreshIds, flag: bool,
                                 execute: (Handler, Job) -> Outcome)
    requires Claimable(s.jobs, jobId)
    requires var job := ClaimedJob(s.jobs[jobId], WORKER_ID, now);
      Decide(job.(cancelRequested := flag), execute) == Decide(job, execute)
    ensures RunOneSpec(WithCancelFlag(s, jobId, flag), jobId, now, ids, execute)
         == WithCancelFlag(RunOneSpec(s, jobId, now, ids, execute), jobId, flag)
  {
    var job := ClaimedJob(s.jobs[jobId], WORKER_ID, now);
    var v := Decide(job, execute);
    ClaimedRunShape(s, jobId, now, ids, execute);
    ClaimedRunShape(WithCancelFlag(s, jobId, flag), jobId, now, ids, execute);
    SetFlagAfterUpdate(s.jobs, jobId, job.(status := FinalStatus(v)), flag);
  }

  lemma SetFlagAfterUpdate(jobs: map<JobId, Job>, jobId: JobId, job: Job, flag: bool)
    requires jobId in jobs
    ensures var updated := jobs[jobId := job];
      updated[jobId := updated[jobId].(cancelRequested := flag)]
        == jobs[jobId := jobs[jobId].(cancelRequested := flag)][jobId := job.(cancelRequested := flag)]
  {
  }

  /** The stores after a run that wins its claim, written out. */
  lemma ClaimedRunShape(s: Stores, jobId: JobId, now: Instant, ids: FreshIds, execute: (Handler, Job) -> Outcome)
    requires Claimable(s.jobs, jobId)
    ensures var job := ClaimedJob(s.jobs[jobId], WORKER_ID, now);
      var v := Decide(job, execute);
      RunOneSpec(s, jobId, now, ids, execute) == Stores(
        s.jobs[jobId := job.(status := FinalStatus(v))],
        s.attempts + [FinishedAttempt(StartedAttempt(ids.attempt, jobId), v)],
        s.events + [StatusEvent(ids.runningEvent, jobId, ToRunning), StatusEvent(ids.finalEvent, jobId, FinalTransition(v))])
  {
  }

  /** The reference handlers read only the payload, so the flag cannot change the verdict. */
  lemma DecideIgnoresCancelFlag(job: Job, flag: bool, parse: string -> ParsedPayload,
                                send: HttpCheckHandler.Request -> HttpCheckHandler.Exchange)
    ensures Decide(job.(cancelRequested := flag), Dispatch(parse, send)) == Decide(job, Dispatch(parse, send))
  {
    var execute := Dispatch(parse, send);
    if job.jobType in REGISTRY {
      var h := REGISTRY[job.jobType];
      assert execute(h, job.(cancelRequested := flag)) == execute(h, job);
    }
  }

  // ---------------------------------------------------------------------------
  // Consistency of the three stores

  /** The payloads of the STATUS_CHANGED events of job `jobId`, in outbox order. */
  function Trace(events: seq<Event>, jobId: JobId): seq<string> {
    if events == [] then []
    else
      var e := events[|events| - 1];
      Trace(events[..|events| - 1], jobId) + (if e.jobId == jobId && e.eventType == STATUS_CHANGED then [e.payload] else [])
  }

  /** The attempts of job `jobId`, in ledger order. */
  function AttemptsOf(attempts: seq<Attempt>, jobId: JobId): seq<Attempt> {
    if attempts == [] then []
    else
      var a := attempts[|attempts| - 1];
      AttemptsOf(attempts[..|attempts| - 1], jobId) + (if a.jobId == jobId then [a] else [])
  }

  /**
   * A job's status agrees with its history: no attempt and no event while PENDING;
   * afterwards a single attempt numbered 1 in the matching state, and one event
   * per status change, RUNNING first.
   */
  ghost predicate HistoryMatches(jobId: JobId, job: Job, trace: seq<string>, tries: seq<Attempt>) {
    match job.status
    case Pending => trace == [] && tries == []
    case Running =>
      && |tries| == 1 && tries[0].attemptNumber == 1 && tries[0].status == AttemptRunning
      && trace == [StatusPayload(jobId, ToRunning)]
    case Success =>
      && |tries| == 1 && tries[0].attemptNumber == 1 && tries[0].status == AttemptSuccess
      && trace == [StatusPayload(jobId, ToRunning), StatusPayload(jobId, ToSuccess)]
    case Failed =>
      && |tries| == 1 && tries[0].attemptNumber == 1 && tries[0].status == AttemptFailed
      && tries[0].errorCode.Some?
      && trace == [StatusPayload(jobId, ToRunning), StatusPayload(jobId, ToFailed(tries[0].errorCode.value))]
  }

  ghost predicate Consistent(s: Stores) {
    forall jobId :: jobId in s.jobs ==> HistoryMatches(jobId, s.jobs[jobId], Trace(s.events, jobId), AttemptsOf(s.attempts, jobId))
  }

  lemma {:induction false} TraceAppend(events: seq<Event>, more: seq<Event>, jobId: JobId)
    requires forall i :: 0 <= i < |more| ==> more[i].jobId != jobId
    ensures Trace(events + more, jobId) == Trace(events, jobId)
    decreases |more|
  {
    if more != [] {
      var shorter := more[..|more| - 1];
      assert (events + more)[..|events + more| - 1] == events + shorter;
      assert (events + more)[|events + more| - 1] == more[|more| - 1];
      TraceAppend(events, shorter, jobId);
      assert Trace(events + more, jobId) == Trace(events + shorter, jobId);
    } else {
      assert events + more == events;
    }
  }

  lemma {:induction false} AttemptsOfAppend(attempts: seq<Attempt>, a: Attempt, jobId: JobId)
    ensures AttemptsOf(attempts + [a], jobId) == AttemptsOf(attempts, jobId) + (if a.jobId == jobId then [a] else [])
  {
    assert (attempts + [a])[..|attempts|] == attempts;
  }

  lemma TraceOfRun(events: seq<Event>, e1: Event, e2: Event, jobId: JobId)
    requires e1.eventType == STATUS_CHANGED && e2.eventType == STATUS_CHANGED && e1.jobId == jobId && e2.jobId == jobId
    ensures Trace(events + [e1, e2], jobId) == Trace(events, jobId) + [e1.payload, e2.payload]
  {
    assert (events + [e1, e2])[..|events| + 1] == events + [e1];
    assert (events + [e1])[..|events|] == events;
  }

  /** A run keeps every job's status, attempts and events in agreement. */
  lemma RunOnePreservesConsistency(s: Stores, jobId: JobId, now: Instant, ids: FreshIds, execute: (Handler, Job) -> Outcome)
    requires Consistent(s)
    ensures Consistent(RunOneSpec(s, jobId, now, ids, execute))
  {
    var t := RunOneSpec(s, jobId, now, ids, execute);
    if Claimable(s.jobs, jobId) {
      var e1 := t.events[|s.events|];
      var e2 := t.events[|s.events| + 1];
      var a := t.attempts[|s.attempts|];
      assert t.events == s.events + [e1, e2];
      assert t.attempts == s.attempts + [a];
      forall id | id in t.jobs
        ensures HistoryMatches(id, t.jobs[id], Trace(t.events, id), AttemptsOf(t.attempts, id))
      {
        AttemptsOfAppend(s.attempts, a, id);
        if id == jobId {
          TraceOfRun(s.events, e1, e2, id);
        } else {
          TraceAppend(s.events, [e1, e2], id);
          assert HistoryMatches(id, s.jobs[id], Trace(s.events, id), AttemptsOf(s.attempts, id));
        }
      }
    }
  }

  // ---------------------------------------------------------------------------
  // Runs with the reference handlers

  /** A simulated batch asked to fail ends FAILED with its fixed message. */
  lemma BatchSimForcedFailureRun(s: Stores, jobId: JobId, now: Instant, ids: FreshIds,
                                 parse: string -> ParsedPayload,
                                 send: HttpCheckHandler.Request -> HttpCheckHandler.Exchange)
    requires Claimable(s.jobs, jobId) && s.jobs[jobId].jobType == "BATCH_SIM"
    requires parse(s.jobs[jobId].payload).batch == BatchSimHandler.Payload(Some(0), Some(true))
    ensures var t := RunOneSpec(s, jobId, now, ids, Dispatch(parse, send));
      && t.jobs[jobId].status == Failed
      && t.attempts[|s.attempts|].errorCode == Some(EXEC_ERROR)
      && t.attempts[|s.attempts|].errorMessage == Some("BATCH_SIM forced failure")
  {
  }

  /** A simulated batch with a non-negative sleep and no forced failure ends SUCCESS. */
  lemma BatchSimSuccessRun(s: Stores, jobId: JobId, now: Instant, ids: FreshIds,
                           parse: string -> ParsedPayload,
                           send: HttpCheckHandler.Request -> HttpCheckHandler.Exchange)
    requires Claimable(s.jobs, jobId) && s.jobs[jobId].jobType == "BATCH_SIM"
    requires BatchSimHandler.SleepMs(parse(s.jobs[jobId].payload).batch) >= 0
    requires !BatchSimHandler.ShouldFail(parse(s.jobs[jobId].payload).batch)
    ensures RunOneSpec(s, jobId, now, ids, Dispatch(parse, send)).jobs[jobId].status == Success
  {
  }

  /**
   * An exchange that delivers a 404 response to the status check ends the job
   * FAILED, and the message reports status 404.
   */
  lemma HttpCheckNotFoundRun(s: Stores, jobId: JobId, now: Instant, ids: FreshIds,
                             parse: string -> ParsedPayload,
                             send: HttpCheckHandler.Request -> HttpCheckHandler.Exchange)
    requires Claimable(s.jobs, jobId) && s.jobs[jobId].jobType == "HTTP_CHECK"
    requires send(HttpCheckHandler.RequestFor(parse(s.jobs[jobId].payload).http)) == HttpCheckHandler.Responded(404)
    ensures var t := RunOneSpec(s, jobId, now, ids, Dispatch(parse, send));
      && t.jobs[jobId].status == Failed
      && t.attempts[|s.attempts|].errorCode == Some(EXEC_ERROR)
      && t.attempts[|s.attempts|].errorMessage == Some("HTTP_CHECK failed: status=404")
  {
    var p := parse(s.jobs[jobId].payload).http;
    NotFoundMessage();
    assert HttpCheckHandler.Execute(p, send) == Threw(Some("HTTP_CHECK failed: status=404"));
  }

  lemma NotFoundMessage()
    ensures HttpCheckHandler.StatusFailure(404) == Some("HTTP_CHECK failed: status=404")
  {
    assert JavaText.NaturalDigits(4) == "4";
    assert JavaText.NaturalDigits(40) == "40";
    assert JavaText.NaturalDigits(404) == "404";
    assert JavaText.IntToString(404) == "404";
    assert HttpCheckHandler.FAILURE_PREFIX + "404" == "HTTP_CHECK failed: status=404";
  }

  /** An exchange that delivers a 200 response to the status check ends the job SUCCESS. */
  lemma HttpCheckOkRun(s: Stores, jobId: JobId, now: Instant, ids: FreshIds,
                       parse: string -> ParsedPayload,
                       send: HttpCheckHandler.Request -> HttpCheckHandler.Exchange)
    requires Claimable(s.jobs, jobId) && s.jobs[jobId].jobType == "HTTP_CHECK"
    requires send(HttpCheckHandler.RequestFor(parse(s.jobs[jobId].payload).http)) == HttpCheckHandler.Responded(200)
    ensures RunOneSpec(s, jobId, now, ids, Dispatch(parse, send)).jobs[jobId].status == Success
  {
  }
}
