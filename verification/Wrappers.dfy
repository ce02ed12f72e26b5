/** What the models share: an option type, how a store command can end, and seconds. */
module Wrappers {
  datatype Option<+T> = None | Some(value: T)

  /** A command takes effect, fails, or takes effect and then reports an error. */
  datatype Outcome = Fine | Fails | FailsLate

  /** Does the command take effect? */
  predicate Effective(o: Outcome) {
    o != Fails
  }

  /** Whole seconds of a clock in milliseconds. */
  function Seconds(ms: nat): nat {
    ms / 1000
  }
}
