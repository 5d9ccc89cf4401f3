/** The two halves of a shutdown: after the first nothing is accepted any more, after the second nothing is written. */
module Shutdown {
  import opened Core
  import opened Broker
  import opened Theorems
  import opened Safety

  /** More steps of the same session. */
  ghost predicate Continues(s: State, steps: seq<Step>, s': State) {
    Run(s, steps) == Some(s') && forall i :: 0 <= i < |steps| ==> !steps[i].SRestart?
  }

  // ---------------------------------------------------------------------------
  // BeginShutdown
  // ---------------------------------------------------------------------------

  ghost predicate Entering(s: State, t: nat) { t in s.tasks && s.tasks[t].Checked? }

  /** No ID is issued, and no message passes the check at the head of `Enqueue`. */
  ghost predicate Refuses(s: State, s': State) {
    && s'.closing && s'.issued == s.issued && s'.home == s.home
    && forall t :: Entering(s', t) ==> Entering(s, t) && s'.tasks[t] == s.tasks[t]
  }

  lemma LogRefuses(s: State, step: Step, s': State)
    requires s.closing && IsLogStep(step) && !step.SRestart? && LogNext(s, step) == Some(s')
    ensures Refuses(s, s')
  {
    LogStepFrame(s, step, s');
    if step.SWriteRecord? {
      WriteRefuses(s, step.t, s');
    } else if step.SWriteTombstone? {
      BuryRefuses(s, step.t);
      assert s'.tasks == s.tasks - {step.t};
    }
  }

  lemma WriteRefuses(s: State, t: nat, s': State)
    requires s.closing && WriteRecord(s, t) == Some(s') && s'.closing && s'.issued == s.issued && s'.home == s.home
    ensures Refuses(s, s')
  {
    LoggedNext(s, t);
    assert s'.tasks == LandRecord(s, t).tasks;
  }

  lemma LoggedNext(s: State, t: nat)
    requires t in s.tasks
    ensures LandRecord(s, t).tasks == SwallowRecord(s, t).tasks == s.tasks[t := Logged(s.tasks[t].msg)]
  {
  }

  lemma BuryRefuses(s: State, t: nat)
    requires t in s.tasks
    ensures LandTombstone(s, t).tasks == WithoutTask(s, t, Gone).tasks == s.tasks - {t}
  {
  }

  lemma ManagerRefuses(s: State, step: Step, s': State)
    requires s.closing && IsManagerStep(step) && ManagerNext(s, step) == Some(s')
    ensures Refuses(s, s')
  {
  }

  lemma OutcomeRefuses(s: State, step: Step, s': State)
    requires s.closing && IsOutcomeStep(step) && OutcomeNext(s, step) == Some(s')
    ensures Refuses(s, s')
  {
  }

  lemma QuietRefuses(s: State, step: Step, s': State)
    requires s.closing && IsQuietStep(step) && QuietNext(s, step) == Some(s')
    ensures Refuses(s, s')
  {
  }

  lemma HandRefuses(s: State, step: Step, s': State)
    requires s.closing && IsHandStep(step) && HandNext(s, step) == Some(s')
    ensures Refuses(s, s')
  {
  }

  lemma OutsideRefuses(s: State, step: Step, s': State)
    requires s.closing && OutsideNext(s, step) == Some(s')
    ensures Refuses(s, s')
  {
  }

  lemma StepRefuses(s: State, step: Step, s': State)
    requires s.closing && !step.SRestart? && Next(s, step) == Some(s')
    ensures Refuses(s, s')
  {
    if IsLogStep(step) {
      LogRefuses(s, step, s');
    } else if IsManagerStep(step) {
      ManagerRefuses(s, step, s');
    } else if IsOutcomeStep(step) {
      OutcomeRefuses(s, step, s');
    } else if IsQuietStep(step) {
      QuietRefuses(s, step, s');
    } else if IsHandStep(step) {
      HandRefuses(s, step, s');
    } else {
      OutsideRefuses(s, step, s');
    }
  }

  /** Once the broker is closing, publishes and retries are refused for the rest of the session. */
  lemma {:induction false} ClosingRefuses(s: State, steps: seq<Step>, s': State)
    requires s.closing && Continues(s, steps, s')
    ensures Refuses(s, s')
  {
    if steps != [] {
      var init := steps[..|steps| - 1];
      var before := Run(s, init).value;
      ClosingRefuses(s, init, before);
      StepRefuses(before, steps[|steps| - 1], s');
    }
  }

  /** From `BeginShutdown` on no publish is accepted and nothing else enters `Enqueue`; what was inside may finish. */
  lemma ShutdownRefuses(s: State, s1: State, steps: seq<Step>, s': State)
    requires Next(s, SBeginShutdown) == Some(s1) && Continues(s1, steps, s')
    ensures s'.issued == s.issued && s'.home == s.home
    ensures forall t :: Entering(s', t) ==> Entering(s, t) && s'.tasks[t] == s.tasks[t]
  {
    ClosingRefuses(s1, steps, s');
  }

  // ---------------------------------------------------------------------------
  // Close
  // ---------------------------------------------------------------------------

  ghost predicate Sealed(s: State, s': State) {
    s'.closed && s'.logs == s.logs && s'.torn == s.torn && s'.landed == s.landed && s'.buried == s.buried
  }

  lemma SealedLog(s: State, step: Step)
    requires s.closed && IsLogStep(step) && !step.SRestart?
    ensures LogNext(s, step).None?
  {
  }

  lemma SealedTorn(s: State, step: Step, s': State)
    requires s.closed && IsManagerStep(step) && ManagerNext(s, step) == Some(s')
    ensures s'.torn == s.torn
  {
  }

  lemma FlagsRise(s: State, step: Step, s': State)
    requires !IsLogStep(step) && Next(s, step) == Some(s')
    ensures (s.closing ==> s'.closing) && (s.cancelled ==> s'.cancelled) && (s.closed ==> s'.closed)
  {
    if IsManagerStep(step) {
      FlagsManager(s, step, s');
    } else if IsOutcomeStep(step) {
      FlagsOutcome(s, step, s');
    } else if IsQuietStep(step) {
      FlagsQuiet(s, step, s');
    } else if IsHandStep(step) {
      FlagsHand(s, step, s');
    } else {
      FlagsOutside(s, step, s');
    }
  }

  predicate SameFlags(s: State, s': State) { s'.closing == s.closing && s'.cancelled == s.cancelled && s'.closed == s.closed }

  lemma FlagsManager(s: State, step: Step, s': State)
    requires IsManagerStep(step) && ManagerNext(s, step) == Some(s')
    ensures SameFlags(s, s')
  {
  }

  lemma FlagsOutcome(s: State, step: Step, s': State)
    requires IsOutcomeStep(step) && OutcomeNext(s, step) == Some(s')
    ensures SameFlags(s, s')
  {
  }

  lemma FlagsQuiet(s: State, step: Step, s': State)
    requires IsQuietStep(step) && QuietNext(s, step) == Some(s')
    ensures SameFlags(s, s')
  {
  }

  lemma FlagsHand(s: State, step: Step, s': State)
    requires IsHandStep(step) && HandNext(s, step) == Some(s')
    ensures SameFlags(s, s')
  {
  }

  lemma FlagsOutside(s: State, step: Step, s': State)
    requires OutsideNext(s, step) == Some(s')
    ensures (s.closing ==> s'.closing) && (s.cancelled ==> s'.cancelled) && (s.closed ==> s'.closed)
  {
  }

  lemma StepSealed(s: State, step: Step, s': State)
    requires s.closed && !step.SRestart? && Next(s, step) == Some(s')
    ensures Sealed(s, s')
  {
    if IsLogStep(step) {
      SealedLog(s, step);
    } else {
      StepFrame(s, step, s');
      FlagsRise(s, step, s');
      if IsManagerStep(step) { SealedTorn(s, step, s'); }
    }
  }

  /** Once the broker is closed, no file changes for the rest of the session. */
  lemma {:induction false} ClosedSeals(s: State, steps: seq<Step>, s': State)
    requires s.closed && Continues(s, steps, s')
    ensures Sealed(s, s')
  {
    if steps != [] {
      var init := steps[..|steps| - 1];
      var before := Run(s, init).value;
      ClosedSeals(s, init, before);
      StepSealed(before, steps[|steps| - 1], s');
    }
  }

  /** From `Close` on every log stays as it is. */
  lemma CloseSeals(s: State, s1: State, steps: seq<Step>, s': State)
    requires Next(s, SClose) == Some(s1) && Continues(s1, steps, s')
    ensures s'.logs == s.logs && s'.torn == s.torn && s'.landed == s.landed && s'.buried == s.buried
  {
    ClosedSeals(s1, steps, s');
  }

  // ---------------------------------------------------------------------------
  // Dispatchers
  // ---------------------------------------------------------------------------

  /** A dispatcher that has stopped was cancelled, or its topic was closed. */
  ghost predicate StoppedForCause(s: State) {
    forall q :: q in s.hands && s.hands[q].Stopped? ==> s.cancelled || s.closed
  }

  lemma StoppedLog(s: State, step: Step, s': State)
    requires StoppedForCause(s) && IsLogStep(step) && !step.SRestart? && LogNext(s, step) == Some(s')
    ensures StoppedForCause(s')
  {
    LogStepFrame(s, step, s');
  }

  lemma StoppedAside(s: State, s': State)
    requires StoppedForCause(s) && s'.hands == s.hands && (s.cancelled ==> s'.cancelled) && (s.closed ==> s'.closed)
    ensures StoppedForCause(s')
  {
  }

  lemma StoppedManager(s: State, step: Step, s': State)
    requires StoppedForCause(s) && IsManagerStep(step) && ManagerNext(s, step) == Some(s')
    ensures StoppedForCause(s')
  {
    StoppedAside(s, s');
  }

  lemma StoppedOutcome(s: State, step: Step, s': State)
    requires StoppedForCause(s) && IsOutcomeStep(step) && OutcomeNext(s, step) == Some(s')
    ensures StoppedForCause(s')
  {
    StoppedAside(s, s');
  }

  lemma StoppedQuiet(s: State, step: Step, s': State)
    requires StoppedForCause(s) && IsQuietStep(step) && QuietNext(s, step) == Some(s')
    ensures StoppedForCause(s')
  {
  }

  lemma StoppedHand(s: State, step: Step, s': State)
    requires StoppedForCause(s) && IsHandStep(step) && HandNext(s, step) == Some(s')
    ensures StoppedForCause(s')
  {
  }

  lemma StoppedOutside(s: State, step: Step, s': State)
    requires StoppedForCause(s) && OutsideNext(s, step) == Some(s')
    ensures StoppedForCause(s')
  {
    StoppedAside(s, s');
  }

  lemma StoppedStep(s: State, step: Step, s': State)
    requires StoppedForCause(s) && !step.SRestart? && Next(s, step) == Some(s')
    ensures StoppedForCause(s')
  {
    if IsLogStep(step) {
      StoppedLog(s, step, s');
    } else if IsManagerStep(step) {
      StoppedManager(s, step, s');
    } else if IsOutcomeStep(step) {
      StoppedOutcome(s, step, s');
    } else if IsQuietStep(step) {
      StoppedQuiet(s, step, s');
    } else if IsHandStep(step) {
      StoppedHand(s, step, s');
    } else {
      StoppedOutside(s, step, s');
    }
  }

  /** As long as the broker is neither cancelled nor closed, no dispatcher stops. */
  lemma DispatchersRunOn(start: State, steps: seq<Step>, s: State, q: Queue)
    requires Reachable(s, start, steps) && q in s.hands && s.hands[q].Stopped?
    ensures s.cancelled || s.closed
  {
    ReachableStopped(start, steps, s);
  }

  lemma {:induction false} ReachableStopped(start: State, steps: seq<Step>, s: State)
    requires Reachable(s, start, steps)
    ensures StoppedForCause(s)
  {
    if steps != [] {
      var init, last := steps[..|steps| - 1], steps[|steps| - 1];
      var before := Run(start, init).value;
      ReachableStopped(start, init, before);
      if !last.SRestart? { StoppedStep(before, last, s); }
    }
  }
}
