/**
 * The decision part of `BatchSimHandler.execute`: payload defaults, the
 * sleep, and the forced failure. The sleep's duration is not modelled, only
 * that `Thread.sleep` rejects a negative duration.
 */
module BatchSimHandler {
  import opened Wrappers
  import opened JobHandler

  const DEFAULT_SLEEP_MS := 500
  const FORCED_FAILURE := "BATCH_SIM forced failure"
  /** The message of the `IllegalArgumentException` that `Thread.sleep` throws for a negative duration. */
  const NEGATIVE_SLEEP := "timeout value is negative"

  /** The fields the handler reads from its payload, both optional. */
  datatype Payload = Payload(sleepMs: Option<int>, shouldFail: Option<bool>)

  function SleepMs(p: Payload): (ms: int)
    ensures p.sleepMs.None? ==> ms == DEFAULT_SLEEP_MS
    ensures p.sleepMs.Some? ==> ms == p.sleepMs.value
  {
    p.sleepMs.GetOr(DEFAULT_SLEEP_MS)
  }

  function ShouldFail(p: Payload): (b: bool)
    ensures b <==> p.shouldFail == Some(true)
  {
    p.shouldFail.Some? && p.shouldFail.value
  }

  /** `execute`: sleep, then fail if asked to. */
  function Execute(p: Payload): (o: Outcome)
    ensures SleepMs(p) < 0 ==> o == Threw(Some(NEGATIVE_SLEEP))
    ensures SleepMs(p) >= 0 ==> (o == Returned <==> !ShouldFail(p))
    ensures SleepMs(p) >= 0 && ShouldFail(p) ==> o == Threw(Some(FORCED_FAILURE))
  {
    if SleepMs(p) < 0 then Threw(Some(NEGATIVE_SLEEP))
    else if ShouldFail(p) then Threw(Some(FORCED_FAILURE))
    else Returned
  }

  /** For durations the sleep accepts, the outcome depends only on `shouldFail`. */
  lemma OutcomeIgnoresSleep(p: Payload, q: Payload)
    requires p.shouldFail == q.shouldFail
    requires SleepMs(p) >= 0 && SleepMs(q) >= 0
    ensures Execute(p) == Execute(q)
  {
  }
}
