/**
 * The handler capability: `execute(job)` either returns normally or throws.
 * A thrown exception is reduced to its message, which Java allows to be null.
 */
module JobHandler {
  import opened Wrappers

  datatype Outcome = Returned | Threw(message: Option<string>)
}
