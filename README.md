# taskflow worker: a Dafny model of single-job execution

This project models the worker of taskflow, a small job-execution service.
`JobRunner.runOne(jobId)` claims a PENDING job and records a RUNNING attempt
and a RUNNING outbox event. It then looks up the handler for the job's type
and records the terminal outcome: job, attempt and a second `STATUS_CHANGED`
event, SUCCESS or FAILED. The project also models the decision logic of the
two reference handlers, the HTTP probe (`HttpCheckHandler`) and the simulated
batch (`BatchSimHandler`).

Modules, one per source unit:

- `Wrappers`: the optional value used for Java's nullable references and absent JSON fields.
- `JavaText`: the two `String` operations the handlers use. `"..." + int` becomes `IntToString`, with `ParseInt` as a left inverse (it also accepts leading zeros). `toUpperCase` becomes `ToUpperCase`.
- `JobHandler`: a handler's outcome. It either returns, or throws with a (possibly null) message.
- `HttpCheckHandler`, `BatchSimHandler`: the handlers. Parsed payload fields and the HTTP exchange are inputs.
- `Domain`: the job, attempt and event records. Also the JSON text of a `STATUS_CHANGED` payload, with a decoder for that text.
- `Worker`: the handler registry, `RunOneSpec` (a run as a function of the stores before it), and class `JobRunner`. The class holds the three stores as fields: a job map, an attempt ledger and an event outbox. Its `RunOne` method is proved equal to `RunOneSpec`.
- `WorkerProperties`: lemmas about `RunOneSpec`:
  - the three terminal paths;
  - terminal jobs are never touched, so a second run is a no-op;
  - the cancellation flag has no effect;
  - a cross-store invariant: every job's status matches its attempts and its outbox events;
  - runs with the reference handlers.

The event payload written by the code quotes the job id: `{"jobId":"<id>","to":"RUNNING"}`. The model follows the code.

The code runs the whole of `runOne` in one transaction. The model treats a run as one step over the stores, so the number of transactions has no effect on it.

## Model

| member | source | states |
|---|---|---|
| `Worker.RunOneSpec` | src/main/java/com/domain/taskflow/worker/JobRunner.java:43-90 | A lost claim leaves all stores unchanged. A won claim changes only the claimed job: it ends SUCCESS or FAILED, with this worker's id and the claim time. It adds exactly one attempt, numbered 1, by "workerId-1", whose status and error code agree with the job's. It appends exactly two events, RUNNING then the terminal one; the FAILED event carries the attempt's error code. Earlier attempts and events are unchanged. |
| `Worker.JobRunner.RunOne` | src/main/java/com/domain/taskflow/worker/JobRunner.java:43-90 | The stores after the method are exactly `RunOneSpec` of the stores before it. The registry and worker id stay fixed. |
| `Worker.JobRunner.ClaimRunning` | src/main/java/com/domain/taskflow/worker/JobRunner.java:48-51 | Returns 1 and moves the job to RUNNING (recording worker and time) exactly when it exists and is PENDING. Otherwise returns 0 and writes nothing. Never touches attempts or events. |
| `Worker.JobRunner.MarkSuccess` | src/main/java/com/domain/taskflow/worker/JobRunner.java:92-105 | Given the ledger row that holds the attempt's id, the job becomes SUCCESS and that row becomes the SUCCESS attempt. The SUCCESS event is appended; nothing else changes. |
| `Worker.JobRunner.MarkFailed` | src/main/java/com/domain/taskflow/worker/JobRunner.java:107-120 | Given the ledger row that holds the attempt's id, the job becomes FAILED and that row becomes FAILED with the given code and message. A FAILED event carrying the code is appended; nothing else changes. |
| `Worker.JobRunner.constructor` | src/main/java/com/domain/taskflow/worker/JobRunner.java:28-41 | The registry is exactly {HTTP_CHECK, BATCH_SIM}, the worker id is "workerId-1", and the stores are the given ones. |
| `Worker.Claimable` | src/main/java/com/domain/taskflow/worker/JobRunner.java:48-51 | The claim is refused for a missing job and for a job already RUNNING, SUCCESS or FAILED. It is granted for a PENDING job. |
| `Worker.ClaimedJob` | src/main/java/com/domain/taskflow/worker/JobRunner.java:48 | The claimed job is RUNNING, owned by the claiming worker since the claim time. Its type, payload and cancellation flag are kept. |
| `Worker.StartedAttempt` | src/main/java/com/domain/taskflow/worker/JobRunner.java:54 | The attempt recorded on a won claim: number 1, worker "workerId-1", RUNNING, no error code or message. |
| `Worker.Decide` | src/main/java/com/domain/taskflow/worker/JobRunner.java:75-89 | An unregistered type gives UNKNOWN_TYPE with "Unknown job type: " + type; no other case gives that code. For a registered type, the run succeeds exactly when the handler returns. A thrown exception gives EXEC_ERROR with its message verbatim. |
| `Worker.FinishedAttempt` | src/main/java/com/domain/taskflow/worker/JobRunner.java:92-120 | `attempt.markSuccess()` / `markFiled(code, msg)`: id, job, number and worker are kept. The status is SUCCESS exactly for a success and FAILED exactly for a failure. A failure records its code and message. |
| `Worker.Dispatch` | src/main/java/com/domain/taskflow/worker/JobRunner.java:37-40 | The registry's two entries run the reference handlers: HTTP_CHECK the probe, BATCH_SIM the batch simulator. The outcome depends on the job only through its payload. |
| `WorkerProperties.DecideIgnoresCancelFlag` | src/main/java/com/domain/taskflow/worker/JobRunner.java:69-72 | With the reference handlers, the verdict of a run is the same whatever the cancellation flag. |
| `WorkerProperties.CancelFlagIgnoredOnClaim` | src/main/java/com/domain/taskflow/worker/JobRunner.java:69-72 | When a won claim's verdict does not depend on the flag, setting the flag before the run changes the result only in that flag. |
| `WorkerProperties.UnknownTypeRun` | src/main/java/com/domain/taskflow/worker/JobRunner.java:75-80 | For a type not in the registry: job FAILED; attempt FAILED with code UNKNOWN_TYPE and message "Unknown job type: " + type; FAILED event with that code. The result is the same for every handler behaviour, so no handler is consulted. |
| `WorkerProperties.HandlerThrewRun` | src/main/java/com/domain/taskflow/worker/JobRunner.java:82-89 | A throwing handler leaves the job FAILED and the attempt FAILED with code EXEC_ERROR and the exception's message verbatim (null included). The FAILED event carries EXEC_ERROR; the run itself completes normally. |
| `WorkerProperties.HandlerReturnedRun` | src/main/java/com/domain/taskflow/worker/JobRunner.java:83-85 | A handler that returns leaves the job SUCCESS and the attempt SUCCESS with no error code or message. The SUCCESS event is appended. |
| `WorkerProperties.TerminalJobUntouched` | src/main/java/com/domain/taskflow/worker/JobRunner.java:48-51 | A run on a SUCCESS or FAILED job changes nothing. |
| `WorkerProperties.RunOneTwice` | src/main/java/com/domain/taskflow/worker/JobRunner.java:48-51 | A second run on the same job, with any handlers, time or ids, writes nothing. A job executes at most once. |
| `WorkerProperties.CancelFlagIgnored` | src/main/java/com/domain/taskflow/worker/JobRunner.java:69-72 | With the reference handlers, setting or clearing `cancelRequested` before the run changes the result only in that flag. |
| `WorkerProperties.RunOnePreservesConsistency` | src/main/java/com/domain/taskflow/worker/JobRunner.java:54-63 | If the stores agree before a run, they agree after it. Agreement means: a PENDING job has no attempt and no event. Any other job has exactly one attempt, numbered 1, in the matching state, and its STATUS_CHANGED events are RUNNING then, once terminal, SUCCESS or FAILED with the attempt's error code. |
| `WorkerProperties.TraceAppend` | src/main/java/com/domain/taskflow/worker/JobRunner.java:58-63 | Appending events of other jobs leaves a job's event history unchanged. |
| `WorkerProperties.TraceOfRun` | src/main/java/com/domain/taskflow/worker/JobRunner.java:58-63 | Appending a job's two status events extends its history by exactly those two payloads, in order. |
| `WorkerProperties.AttemptsOfAppend` | src/main/java/com/domain/taskflow/worker/JobRunner.java:54-55 | Adding an attempt extends only its own job's attempt list. |
| `WorkerProperties.BatchSimForcedFailureRun` | src/main/java/com/domain/taskflow/worker/BatchSimHandler.java:30-31 | A BATCH_SIM job with payload sleepMs 0, shouldFail true ends FAILED, with EXEC_ERROR and message "BATCH_SIM forced failure". |
| `WorkerProperties.BatchSimSuccessRun` | src/main/java/com/domain/taskflow/worker/BatchSimHandler.java:25-33 | A BATCH_SIM job with a non-negative sleep and no forced failure ends SUCCESS. |
| `WorkerProperties.HttpCheckNotFoundRun` | src/main/java/com/domain/taskflow/worker/HttpCheckHandler.java:34-35 | An HTTP_CHECK job whose exchange delivers a 404 response to the status check ends FAILED, with EXEC_ERROR and message "HTTP_CHECK failed: status=404". |
| `WorkerProperties.NotFoundMessage` | src/main/java/com/domain/taskflow/worker/HttpCheckHandler.java:35 | The failure message for status 404 is "HTTP_CHECK failed: status=404". |
| `WorkerProperties.HttpCheckOkRun` | src/main/java/com/domain/taskflow/worker/HttpCheckHandler.java:34 | An HTTP_CHECK job whose exchange delivers a 200 response to the status check ends SUCCESS. |
| `Domain.StatusPayload` | src/main/java/com/domain/taskflow/worker/JobRunner.java:58-63 | The payload text built at lines 62, 103 and 118. It begins with `{"jobId":"<id>","to":"`, and decoding it for that job recovers exactly the transition written: RUNNING, SUCCESS, or FAILED with its error code. |
| `Domain.TargetTextRoundTrip` | src/main/java/com/domain/taskflow/worker/JobRunner.java:114-119 | The text after `"to":"` decodes to the transition it came from, the FAILED error code included. |
| `Domain.StatusPayloadInjective` | src/main/java/com/domain/taskflow/worker/JobRunner.java:114-119 | Two transitions of one job give the same payload text only when they are equal. Consumers of the outbox can always tell them apart. |
| `HttpCheckHandler.RequestMethod` | src/main/java/com/domain/taskflow/worker/HttpCheckHandler.java:27-29 | Without a method field the method is "GET". Otherwise it is the given name, char by char upper-cased, same length. Either way it is its own upper-case form. |
| `HttpCheckHandler.StatusFailure` | src/main/java/com/domain/taskflow/worker/HttpCheckHandler.java:34-36 | No failure exactly when 200 <= status < 300, so any status below 200 or at least 300 fails. A failure message is exactly "HTTP_CHECK failed: status=" followed by the decimal status, and reads back to the status. |
| `HttpCheckHandler.Execute` | src/main/java/com/domain/taskflow/worker/HttpCheckHandler.java:24-38 | For a response, returns exactly when the status is 2xx, else throws exactly "HTTP_CHECK failed: status=" followed by the decimal status. An exception raised by the exchange is propagated with its message. |
| `HttpCheckHandler.FailureMessageIdentifiesStatus` | src/main/java/com/domain/taskflow/worker/HttpCheckHandler.java:35 | Different failing statuses give different messages. |
| `BatchSimHandler.SleepMs` | src/main/java/com/domain/taskflow/worker/BatchSimHandler.java:25 | The sleep is the payload's sleepMs, or 500 when absent. |
| `BatchSimHandler.ShouldFail` | src/main/java/com/domain/taskflow/worker/BatchSimHandler.java:26 | Failure is forced exactly when shouldFail is present and true; absent means false. |
| `BatchSimHandler.Execute` | src/main/java/com/domain/taskflow/worker/BatchSimHandler.java:23-33 | For a non-negative sleep: returns exactly when not forced to fail, else throws "BATCH_SIM forced failure". A negative sleep throws the sleep's own error. |
| `BatchSimHandler.OutcomeIgnoresSleep` | src/main/java/com/domain/taskflow/worker/BatchSimHandler.java:25-32 | Two payloads with the same shouldFail and non-negative sleeps have the same outcome. |
| `JavaText.IntToString` | src/main/java/com/domain/taskflow/worker/HttpCheckHandler.java:35 | The rendered int is non-empty and starts with '-' exactly when it is negative. |
| `JavaText.NaturalDigits` | src/main/java/com/domain/taskflow/worker/HttpCheckHandler.java:35 | The digits of a natural are non-empty and all decimal digits; a text longer than one digit never starts with '0', and a leading '0' occurs only for zero. |
| `JavaText.NaturalDigitsValue` | src/main/java/com/domain/taskflow/worker/HttpCheckHandler.java:35 | The digits of n denote n. |
| `JavaText.IntToStringRoundTrip` | src/main/java/com/domain/taskflow/worker/HttpCheckHandler.java:35 | Parsing a rendered int gives back that int. |
| `JavaText.IntToStringInjective` | src/main/java/com/domain/taskflow/worker/HttpCheckHandler.java:35 | Distinct ints render differently. |
| `JavaText.UpperChar` | src/main/java/com/domain/taskflow/worker/HttpCheckHandler.java:29 | A lower-case ASCII letter maps to its upper-case letter; every other char is kept. |
| `JavaText.ToUpperCase` | src/main/java/com/domain/taskflow/worker/HttpCheckHandler.java:29 | Same length, each char upper-cased on its own. |
| `JavaText.ToUpperCaseLeavesNoLowerCase` | src/main/java/com/domain/taskflow/worker/HttpCheckHandler.java:29 | No lower-case ASCII letter remains after upper-casing. |
| `JavaText.ToUpperCaseIdempotent` | src/main/java/com/domain/taskflow/worker/HttpCheckHandler.java:29 | Upper-casing twice equals upper-casing once. |

## Left out

- Concurrency: `JobRepository.claimRunning` is not part of this model. Its atomicity under concurrent callers is assumed: the claim is one step that succeeds only on an existing PENDING job. Interleavings are not modelled.
- Transactions, ORM dirty-tracking of the managed job, and dependency injection: these become explicit updates of the three stores. The attempt entity is mutated in place and saved again; this becomes a replacement of its ledger row.
- Timestamps and random ids: `OffsetDateTime.now()` is the `now` parameter, and `UUID.randomUUID()` values are the `FreshIds` parameter. Attempt start/end times and event creation times are not modelled.
- The entity classes `Job`, `JobAttempt` and `JobEvent` and the query behind `JobRepository.claimRunning` are not part of this model; `Domain.Job`, `Domain.Attempt` and `Domain.Event` stand for them, and their effects are assumed, not read from source:
  - `new JobAttempt(..)` (`Worker.StartedAttempt`) is taken to start RUNNING with no error code and no error message;
  - `attempt.markSuccess()` (`Worker.FinishedAttempt`) is taken to set SUCCESS and keep the error fields as they were (absent);
  - `attempt.markFiled(code, message)` (`Worker.FinishedAttempt`) is taken to set FAILED and record exactly that code and message;
  - `Job.markSuccess()` / `Job.markFailed()` (`Worker.FinalStatus`) are taken to set only the status;
  - the claim (`Worker.ClaimedJob`) is taken to set status RUNNING, the worker id and the claim time, and nothing else.
- The reserved CANCELED status: nothing in this core sets it.
- JSON parsing (`readTree`, `asLong`, `asBoolean`, `asText`): payload fields arrive already parsed, as `ParsedPayload`.
- The HTTP request itself and `HttpMethod.valueOf`: the exchange is the `send` parameter, and an exception it raises is an input. The client made by `RestClient.create()` raises an exception for every 4xx/5xx response inside `retrieve().toBodilessEntity()` (HttpCheckHandler.java line 31). Such a response never reaches the status check, and the recorded message is the client's. `Responded(s)` with s >= 400 therefore stands for a client without that default handling.
- A missing `url` field (a null dereference inside the HTTP handler): `url` is a required field of the payload.
- `Thread.sleep`'s delay and interruption. Only its rejection of a negative duration is modelled, with the JDK's message "timeout value is negative".
- `BatchSimHandler.OutcomeIgnoresSleep`: holds only for non-negative sleeps, because `Thread.sleep` throws on a negative duration before `shouldFail` is read.
- `JavaText.ToUpperCase` and `JavaText.UpperChar`: map ASCII letters only. Java's locale-dependent Unicode case mapping is not modelled; for method names such as "get" or "post" the two agree.
- `Worker.JobRunner.MarkSuccess` and `Worker.JobRunner.MarkFailed`: require the job to exist, and the given ledger row to hold the attempt's id. The source throws `NoSuchElementException` for a missing job, which cannot happen when they are called from `runOne`. `save(attempt)` merges by id, so it always rewrites that attempt's own row.
- A null job type: `Map.of(...).get(null)` (JobRunner.java line 75) throws `NullPointerException` outside the try, so `runOne` would fail after the claim. The model's `jobType` is a string and cannot be null.
- `Worker.RunOneSpec`: describes the stores only after the run. `RunOne`'s body writes the RUNNING attempt and the RUNNING event before the handler is called, then overwrites the attempt row. No contract states that intermediate state, because the code commits the whole run as one transaction.
- Exceptions raised by the stores, including by `markSuccess` inside the try block: only handler failures are a failure source.
- Java's `int` and `long` widths: status codes and sleep durations are unbounded integers. No arithmetic is done on them, so no wrap-around arises.
