/**
 * `JobRunner`: claim a job, record a RUNNING attempt and event, dispatch on the
 * job's type, and record the terminal outcome.
 *
 * The three stores the runner writes through its repositories (jobs, attempts,
 * outbox events) are the fields of `JobRunner`. `RunOneSpec` is the same run
 * as a function of the stores before it; `JobRunner.RunOne` is proved to
 * produce exactly that.
 */
module Worker {
  import opened Wrappers
  import opened Domain
  import opened JobHandler
  import HttpCheckHandler
  import BatchSimHandler

  const WORKER_ID := "workerId-1"
  const UNKNOWN_TYPE := "UNKNOWN_TYPE"
  const EXEC_ERROR := "EXEC_ERROR"
  const UNKNOWN_TYPE_PREFIX := "Unknown job type: "

  datatype Handler = HttpCheck | BatchSim

  /** The handler registry, fixed at construction. */
  const REGISTRY: map<string, Handler> := map["HTTP_CHECK" := HttpCheck, "BATCH_SIM" := BatchSim]

  datatype Stores = Stores(jobs: map<JobId, Job>, attempts: seq<Attempt>, events: seq<Event>)

  /** The random identifiers one run draws: for its attempt and its two events. */
  datatype FreshIds = FreshIds(attempt: Uuid, runningEvent: Uuid, finalEvent: Uuid)

  /** How a run that won its claim ends. */
  datatype Verdict = Succeeded | FailedWith(code: string, message: Option<string>)

  /** The claim succeeds only on a job that exists and is PENDING. */
  predicate Claimable(jobs: map<JobId, Job>, jobId: JobId): (b: bool)
    ensures jobId !in jobs ==> !b
    ensures jobId in jobs && (jobs[jobId].status == Running || IsTerminal(jobs[jobId].status)) ==> !b
    ensures jobId in jobs && jobs[jobId].status == Pending ==> b
  {
    jobId in jobs && jobs[jobId].status == Pending
  }

  /** The claim's effect: RUNNING, owned by `worker` since `now`; type, payload and flag kept. */
  function ClaimedJob(job: Job, worker: string, now: Instant): (r: Job)
    ensures r.status == Running && r.workerId == Some(worker) && r.claimedAt == Some(now)
    ensures r.jobType == job.jobType && r.payload == job.payload && r.cancelRequested == job.cancelRequested
  {
    job.(status := Running, workerId := Some(worker), claimedAt := Some(now))
  }

  function StatusEvent(id: Uuid, jobId: JobId, t: Transition): Event {
    Event(id, jobId, STATUS_CHANGED, StatusPayload(jobId, t))
  }

  /** Lookup of the job's type, then the handler's outcome. */
  function Decide(job: Job, execute: (Handler, Job) -> Outcome): (v: Verdict)
    ensures job.jobType !in REGISTRY ==> v == FailedWith(UNKNOWN_TYPE, Some(UNKNOWN_TYPE_PREFIX + job.jobType))
    ensures job.jobType in REGISTRY ==> (v == Succeeded <==> execute(REGISTRY[job.jobType], job) == Returned)
    ensures job.jobType in REGISTRY && execute(REGISTRY[job.jobType], job).Threw? ==>
      v == FailedWith(EXEC_ERROR, execute(REGISTRY[job.jobType], job).message)
    ensures v.FailedWith? && v.code == UNKNOWN_TYPE <==> job.jobType !in REGISTRY
  {
    if job.jobType !in REGISTRY then
      FailedWith(UNKNOWN_TYPE, Some(UNKNOWN_TYPE_PREFIX + job.jobType))
    else
      match execute(REGISTRY[job.jobType], job)
      case Returned => Succeeded
      case Threw(message) => FailedWith(EXEC_ERROR, message)
  }

  function FinalStatus(v: Verdict): JobStatus {
    if v.Succeeded? then Success else Failed
  }

  function FinalTransition(v: Verdict): Transition {
    if v.Succeeded? then ToSuccess else ToFailed(v.code)
  }

  /** `JobAttempt.markSuccess` / `markFiled`. */
  function FinishedAttempt(a: Attempt, v: Verdict): (r: Attempt)
    ensures r.id == a.id && r.jobId == a.jobId && r.attemptNumber == a.attemptNumber && r.workerId == a.workerId
    ensures r.status == AttemptSuccess <==> v.Succeeded?
    ensures r.status == AttemptFailed <==> v.FailedWith?
    ensures v.Succeeded? ==> r.errorCode == a.errorCode && r.errorMessage == a.errorMessage
    ensures v.FailedWith? ==> r.errorCode == Some(v.code) && r.errorMessage == v.message
  {
    match v
    case Succeeded => a.(status := AttemptSuccess)
    case FailedWith(code, message) => a.(status := AttemptFailed, errorCode := Some(code), errorMessage := message)
  }

  /** The attempt a run records when it wins the claim. */
  function StartedAttempt(id: Uuid, jobId: JobId): (a: Attempt)
    ensures a.id == id && a.jobId == jobId
    ensures a.attemptNumber == 1 && a.workerId == WORKER_ID && a.status == AttemptRunning
    ensures a.errorCode.None? && a.errorMessage.None?
  {
    Attempt(id, jobId, 1, WORKER_ID, AttemptRunning, None, None)
  }

  /** The stores after `runOne(jobId)`. */
  function RunOneSpec(s: Stores, jobId: JobId, now: Instant, ids: FreshIds, execute: (Handler, Job) -> Outcome): (t: Stores)
    // A lost claim writes nothing.
    ensures !Claimable(s.jobs, jobId) ==> t == s
    // Otherwise the job, and no other, ends in a terminal status, claimed by this worker.
    ensures Claimable(s.jobs, jobId) ==>
      && t.jobs.Keys == s.jobs.Keys
      && IsTerminal(t.jobs[jobId].status)
      && t.jobs[jobId] == s.jobs[jobId].(status := t.jobs[jobId].status, workerId := Some(WORKER_ID), claimedAt := Some(now))
      && (forall id :: id in s.jobs && id != jobId ==> t.jobs[id] == s.jobs[id])
    // Exactly one attempt is added: number 1, by this worker, finished as the job finished.
    ensures Claimable(s.jobs, jobId) ==>
      && |t.attempts| == |s.attempts| + 1
      && t.attempts[..|s.attempts|] == s.attempts
      && t.attempts[|s.attempts|].id == ids.attempt
      && t.attempts[|s.attempts|].jobId == jobId
      && t.attempts[|s.attempts|].attemptNumber == 1
      && t.attempts[|s.attempts|].workerId == WORKER_ID
      && (t.attempts[|s.attempts|].status == AttemptSuccess <==> t.jobs[jobId].status == Success)
      && (t.attempts[|s.attempts|].status == AttemptFailed <==> t.jobs[jobId].status == Failed)
      && (t.attempts[|s.attempts|].errorCode.Some? <==> t.jobs[jobId].status == Failed)
    // Exactly two events are appended, RUNNING then the terminal one; earlier events are kept.
    ensures Claimable(s.jobs, jobId) ==>
      && |t.events| == |s.events| + 2
      && t.events[..|s.events|] == s.events
      && t.events[|s.events|] == StatusEvent(ids.runningEvent, jobId, ToRunning)
      && t.events[|s.events| + 1] == StatusEvent(ids.finalEvent, jobId,
           if t.jobs[jobId].status == Success then ToSuccess
           else ToFailed(t.attempts[|s.attempts|].errorCode.value))
  {
    if !Claimable(s.jobs, jobId) then s
    else
      var job := ClaimedJob(s.jobs[jobId], WORKER_ID, now);
      var verdict := Decide(job, execute);
      Stores(
        s.jobs[jobId := job.(status := FinalStatus(verdict))],
        s.attempts + [FinishedAttempt(StartedAttempt(ids.attempt, jobId), verdict)],
        s.events + [StatusEvent(ids.runningEvent, jobId, ToRunning),
                    StatusEvent(ids.finalEvent, jobId, FinalTransition(verdict))])
  }

  /** The parsed payload fields each reference handler reads. */
  datatype ParsedPayload = ParsedPayload(http: HttpCheckHandler.Payload, batch: BatchSimHandler.Payload)

  /**
   * Handler execution with the two reference handlers: `parse` stands for reading
   * the job's JSON payload, `send` for the HTTP exchange.
   */
  function Dispatch(parse: string -> ParsedPayload, send: HttpCheckHandler.Request -> HttpCheckHandler.Exchange): (execute: (Handler, Job) -> Outcome)
    // The outcome depends on the job only through its payload.
    ensures forall h: Handler, j: Job, k: Job :: j.payload == k.payload ==> execute(h, j) == execute(h, k)
    ensures forall j: Job :: execute(HttpCheck, j) == HttpCheckHandler.Execute(parse(j.payload).http, send)
    ensures forall j: Job :: execute(BatchSim, j) == BatchSimHandler.Execute(parse(j.payload).batch)
  {
    (h: Handler, job: Job) =>
      match h
      case HttpCheck => HttpCheckHandler.Execute(parse(job.payload).http, send)
      case BatchSim => BatchSimHandler.Execute(parse(job.payload).batch)
  }

  class JobRunner {
    const workerId: string
    const handlers: map<string, Handler>
    var jobs: map<JobId, Job>
    var attempts: seq<Attempt>
    var events: seq<Event>

    ghost predicate Valid()
      reads this
    {
      workerId == WORKER_ID && handlers == REGISTRY
    }

    function Snapshot(): Stores
      reads this
    {
      Stores(jobs, attempts, events)
    }

    /** A runner over the given stores, with the fixed worker identity and registry. */
    constructor (initial: Stores)
      ensures Valid() && Snapshot() == initial
    {
      workerId := WORKER_ID;
      handlers := REGISTRY;
      jobs := initial.jobs;
      attempts := initial.attempts;
      events := initial.events;
    }

    /** `JobRepository.claimRunning`: an atomic compare-and-set from PENDING to RUNNING; 1 if it took effect, else 0. */
    method ClaimRunning(jobId: JobId, worker: string, now: Instant) returns (claimed: nat)
      modifies this
      ensures claimed == if Claimable(old(jobs), jobId) then 1 else 0
      ensures jobs == if claimed == 1 then old(jobs)[jobId := ClaimedJob(old(jobs)[jobId], worker, now)] else old(jobs)
      ensures attempts == old(attempts) && events == old(events)
    {
      if Claimable(jobs, jobId) {
        jobs := jobs[jobId := ClaimedJob(jobs[jobId], worker, now)];
        claimed := 1;
      } else {
        claimed := 0;
      }
    }

    /** `markSuccess`: the job and the attempt (stored in ledger row `row`, which holds that attempt's id) become SUCCESS, and the SUCCESS event is appended. */
    method MarkSuccess(jobId: JobId, attempt: Attempt, row: nat, eventId: Uuid)
      requires jobId in jobs && row < |attempts|
      requires attempts[row].id == attempt.id
      modifies this
      ensures jobs == old(jobs)[jobId := old(jobs)[jobId].(status := Success)]
      ensures attempts == old(attempts)[row := FinishedAttempt(attempt, Succeeded)]
      ensures events == old(events) + [StatusEvent(eventId, jobId, ToSuccess)]
    {
      var managed := jobs[jobId];
      jobs := jobs[jobId := managed.(status := Success)];
      var finished := FinishedAttempt(attempt, Succeeded);
      attempts := attempts[row := finished];
      events := events + [StatusEvent(eventId, jobId, ToSuccess)];
    }

    /** `markFailed`: the job and the attempt become FAILED with `code` and `message`, and the FAILED event carries `code`. */
    method MarkFailed(jobId: JobId, attempt: Attempt, row: nat, code: string, message: Option<string>, eventId: Uuid)
      requires jobId in jobs && row < |attempts|
      requires attempts[row].id == attempt.id
      modifies this
      ensures jobs == old(jobs)[jobId := old(jobs)[jobId].(status := Failed)]
      ensures attempts == old(attempts)[row := FinishedAttempt(attempt, FailedWith(code, message))]
      ensures events == old(events) + [StatusEvent(eventId, jobId, ToFailed(code))]
    {
      var managed := jobs[jobId];
      jobs := jobs[jobId := managed.(status := Failed)];
      var finished := FinishedAttempt(attempt, FailedWith(code, message));
      attempts := attempts[row := finished];
      events := events + [StatusEvent(eventId, jobId, ToFailed(code))];
    }

    /** `runOne`: the whole lifecycle of one job; handler failures end in the stores, never in the caller. */
    method RunOne(jobId: JobId, now: Instant, ids: FreshIds, execute: (Handler, Job) -> Outcome)
      requires Valid()
      modifies this
      ensures Valid()
      ensures Snapshot() == RunOneSpec(old(Snapshot()), jobId, now, ids, execute)
    {
      ghost var before := Snapshot();
      var claimed := ClaimRunning(jobId, workerId, now);
      if claimed == 0 {
        return;
      }
      ghost var verdict := Decide(ClaimedJob(before.jobs[jobId], WORKER_ID, now), execute);

      var attempt := Attempt(ids.attempt, jobId, 1, workerId, AttemptRunning, None, None);
      var row := |attempts|;
      attempts := attempts + [attempt];

      events := events + [StatusEvent(ids.runningEvent, jobId, ToRunning)];

      var job := jobs[jobId];

      if job.cancelRequested {
        // No cancellation policy exists: the run goes on as if the flag were clear.
      }

      if job.jobType !in handlers {
        MarkFailed(jobId, attempt, row, UNKNOWN_TYPE, Some(UNKNOWN_TYPE_PREFIX + job.jobType), ids.finalEvent);
      } else {
        match execute(handlers[job.jobType], job)
        case Returned =>
          MarkSuccess(jobId, attempt, row, ids.finalEvent);
        case Threw(message) =>
          MarkFailed(jobId, attempt, row, EXEC_ERROR, message, ids.finalEvent);
      }
      assert jobs == before.jobs[jobId := job.(status := FinalStatus(verdict))];
      assert attempts == before.attempts + [FinishedAttempt(StartedAttempt(ids.attempt, jobId), verdict)];
      assert events == before.events + [StatusEvent(ids.runningEvent, jobId, ToRunning),
                                        StatusEvent(ids.finalEvent, jobId, FinalTransition(verdict))];
    }
  }
}
