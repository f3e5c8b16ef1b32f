/** Run and step phases. */
module Phases {
  /** Unset is the empty phase of something that has not been looked at yet. */
  datatype Phase = Unset | Queued | Running | Paused | Passed | Failed | Error | Aborted | Skipped

  predicate IsTerminal(p: Phase) {
    p in {Passed, Failed, Error, Aborted}
  }
}
