/** Phases of a Calculation, of one of its steps and of a bulk entry, and the
    two tests the dispatcher makes on the step statuses. */
module Phases {

  // `Unset` is the empty string the API objects start with.
  datatype Phase = Unset | Created | Processing | Completed | Failed | Cached

  // The statuses the worker ever writes to a step.
  predicate IsOutcome(p: Phase) {
    p == Completed || p == Failed
  }

  predicate IsStatus(p: Phase) {
    p == Unset || IsOutcome(p)
  }

  ghost predicate AllStatuses(steps: seq<Phase>) {
    forall i | 0 <= i < |steps| :: IsStatus(steps[i])
  }

  predicate Finished(steps: seq<Phase>) {
    forall i | 0 <= i < |steps| :: steps[i] != Unset
  }

  predicate HasFailed(steps: seq<Phase>) {
    exists i | 0 <= i < |steps| :: steps[i] == Failed
  }

  function FinalPhase(steps: seq<Phase>): Phase {
    if HasFailed(steps) then Failed else Completed
  }
}
