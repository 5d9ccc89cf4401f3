/** Consumers get messages of their own queue only. */
module Subscribers {
  import opened Core
  import opened Broker
  import opened Ownership
  import opened Counters
  import opened Theorems
  import opened Safety
  import opened Shutdown
  import opened Notes
  import opened Mail

  ghost predicate Wants(n: Notes, c: ConsumerID, q: Queue) { c in n.requests && n.requests[c].queue == q }

  /** Whom the dispatcher of `q` may choose, or has chosen, subscribed to `q`. */
  ghost predicate ForQueue(n: Notes, pc: Pc, q: Queue) {
    && (pc.Choosing? ==> forall c :: c in pc.eligible ==> Wants(n, c, q))
    && (pc.Charged? || pc.Sending? ==> Wants(n, pc.consumer, q))
  }

  ghost predicate Matched(s: State, n: Notes) {
    && n.requests.Keys <= s.known
    && (forall q :: q in s.hands ==> ForQueue(n, s.hands[q], q))
    && (forall c, m :: c in n.sent && m in n.sent[c] ==> Wants(n, c, m.queue))
  }

  /** The dispatcher has made no choice. */
  predicate Unchosen(pc: Pc) { !pc.Choosing? && !pc.Charged? && !pc.Sending? }

  /** Every dispatcher is where it was, or has made no choice. */
  ghost predicate NoChoice(s: State, s': State) {
    && s.known <= s'.known
    && forall q :: q in s'.hands ==> Unchosen(s'.hands[q]) || (q in s.hands && s'.hands[q] == s.hands[q])
  }

  lemma MatchedStays(s: State, n: Notes, s': State, n': Notes)
    requires Matched(s, n) && NoChoice(s, s') && n'.requests == n.requests && n'.sent == n.sent
    ensures Matched(s', n')
  {
  }

  lemma SameHands(s: State, s': State)
    requires s'.hands == s.hands && s'.known == s.known
    ensures NoChoice(s, s')
  {
  }

  lemma NoChoiceLog(s: State, step: Step, s': State)
    requires IsLogStep(step) && !step.SRestart? && LogNext(s, step) == Some(s')
    ensures NoChoice(s, s')
  {
    LogStepFrame(s, step, s');
    SameHands(s, s');
  }

  lemma NoChoiceManager(s: State, step: Step, s': State)
    requires IsManagerStep(step) && ManagerNext(s, step) == Some(s')
    ensures NoChoice(s, s')
  {
    SameHands(s, s');
  }

  lemma NoChoiceOutcome(s: State, step: Step, s': State)
    requires IsOutcomeStep(step) && OutcomeNext(s, step) == Some(s')
    ensures NoChoice(s, s')
  {
    SameHands(s, s');
  }

  lemma NoChoiceQuiet(s: State, step: Step, s': State)
    requires IsQuietStep(step) && !step.SSnapshot? && QuietNext(s, step) == Some(s')
    ensures NoChoice(s, s')
  {
  }

  lemma NoChoiceHand(s: State, step: Step, s': State)
    requires IsHandStep(step) && !step.SCharge? && !step.SRegister? && HandNext(s, step) == Some(s')
    ensures NoChoice(s, s')
  {
  }

  lemma NoChoiceOutside(s: State, step: Step, s': State)
    requires OutsideNext(s, step) == Some(s')
    ensures NoChoice(s, s')
  {
  }

  lemma NoChoiceStep(s: State, step: Step, s': State)
    requires !step.SRestart? && !step.SSnapshot? && !step.SCharge? && !step.SRegister? && Next(s, step) == Some(s')
    ensures NoChoice(s, s')
  {
    if IsLogStep(step) {
      NoChoiceLog(s, step, s');
    } else if IsManagerStep(step) {
      NoChoiceManager(s, step, s');
    } else if IsOutcomeStep(step) {
      NoChoiceOutcome(s, step, s');
    } else if IsQuietStep(step) {
      NoChoiceQuiet(s, step, s');
    } else if IsHandStep(step) {
      NoChoiceHand(s, step, s');
    } else {
      NoChoiceOutside(s, step, s');
    }
  }

  lemma MatchedSnapshot(s: State, n: Notes, q: Queue, s': State)
    requires Matched(s, n) && Granted(s, n) && Snapshot(s, q) == Some(s')
    ensures Matched(s', n)
  {
  }

  lemma MatchedCharge(s: State, n: Notes, q: Queue, c: ConsumerID, s': State)
    requires Matched(s, n) && Charge(s, q, c) == Some(s')
    ensures Matched(s', n)
  {
    assert ForQueue(n, s.hands[q], q);
  }

  lemma MatchedRegister(s: State, n: Notes, q: Queue, now: Instant, s': State, n': Notes)
    requires Matched(s, n) && Register(s, q, now) == Some(s') && n'.requests == n.requests && n'.sent == n.sent
    ensures Matched(s', n')
  {
    assert ForQueue(n, s.hands[q], q);
  }

  lemma MatchedSend(s: State, n: Notes, q: Queue, s': State)
    requires Matched(s, n) && Connected(s) && Send(s, q) == Some(s')
    ensures Matched(s', Noted(n, s, SSend(q)))
  {
    assert ForQueue(n, s.hands[q], q) && s.hands[q].msg.queue == q;
    NoChoiceQuiet(s, SSend(q), s');
  }

  lemma MatchedConnect(s: State, n: Notes, c: ConsumerID, q: Queue, requested: int32, s': State)
    requires Matched(s, n) && Connect(s, c, q, requested) == Some(s')
    ensures Matched(s', Noted(n, s, SConnect(c, q, requested)))
  {
    var n' := Noted(n, s, SConnect(c, q, requested));
    assert forall d, p :: Wants(n, d, p) ==> Wants(n', d, p);
    forall p | p in s'.hands ensures ForQueue(n', s'.hands[p], p) { assert ForQueue(n, s.hands[p], p); }
  }

  lemma MatchedStep(s: State, n: Notes, step: Step, s': State)
    requires Matched(s, n) && Granted(s, n) && Connected(s) && !step.SRestart? && Next(s, step) == Some(s')
    ensures Matched(s', Noted(n, s, step))
  {
    NotedOnly(n, s, step);
    if step.SSnapshot? {
      MatchedSnapshot(s, n, step.q, s');
    } else if step.SCharge? {
      MatchedCharge(s, n, step.q, step.c, s');
    } else if step.SRegister? {
      MatchedRegister(s, n, step.q, step.now, s', Noted(n, s, step));
    } else if step.SSend? {
      MatchedSend(s, n, step.q, s');
    } else if step.SConnect? {
      MatchedConnect(s, n, step.c, step.q, step.requested, s');
    } else {
      NoChoiceStep(s, step, s');
      MatchedStays(s, n, s', Noted(n, s, step));
    }
  }

  lemma {:induction false} ReachableIsMatched(start: State, steps: seq<Step>, s: State)
    requires Reachable(s, start, steps)
    ensures Matched(s, NotesOf(start, steps))
  {
    if steps == [] {
    } else {
      var init, last := steps[..|steps| - 1], steps[|steps| - 1];
      var before, n := Run(start, init).value, NotesOf(start, init);
      ReachableIsMatched(start, init, before);
      if last.SRestart? {
        AfterRestart(before, last, s);
      } else {
        ReachableIsObserved(start, init, before);
        ReachableIsMailed(start, init, before);
        MatchedStep(before, n, last, s);
      }
    }
  }

  /** Whatever a consumer has received, or waits in its channel, is of the queue it subscribed to. */
  lemma OnlyOwnQueue(start: State, steps: seq<Step>, s: State, c: ConsumerID, m: Message)
    requires Reachable(s, start, steps) && c in s.mailboxes
    requires m in s.mailboxes[c].msgs || m in ListOf(NotesOf(start, steps).received, c)
    ensures c in NotesOf(start, steps).requests && m.queue == NotesOf(start, steps).requests[c].queue
  {
    ReachableIsMatched(start, steps, s);
    MailInOrder(start, steps, s, c);
    assert m in NotesOf(start, steps).sent[c];
  }

  // ---------------------------------------------------------------------------
  // Leaving
  // ---------------------------------------------------------------------------

  /** The ID was given to a consumer that is not registered any more. */
  ghost predicate Departed(s: State, c: ConsumerID) { c in s.known && c !in s.consumers }

  lemma KnownGrows(s: State, step: Step, s': State)
    requires !step.SRestart? && Next(s, step) == Some(s')
    ensures s.known <= s'.known
  {
    if step.SSnapshot? || step.SCharge? || step.SRegister? {
    } else {
      NoChoiceStep(s, step, s');
    }
  }

  lemma DepartedStep(s: State, c: ConsumerID, step: Step, s': State)
    requires Departed(s, c) && !step.SRestart? && Next(s, step) == Some(s')
    ensures Departed(s', c)
  {
    KnownGrows(s, step, s');
    if !step.SConnect? { StepShrinks(s, step, s'); }
  }

  lemma {:induction false} StaysDeparted(s: State, c: ConsumerID, steps: seq<Step>, s': State)
    requires Departed(s, c) && Continues(s, steps, s')
    ensures Departed(s', c)
  {
    if steps != [] {
      var init := steps[..|steps| - 1];
      var before := Run(s, init).value;
      StaysDeparted(s, c, init, before);
      DepartedStep(before, c, steps[|steps| - 1], s');
    }
  }

  /** Once a consumer has disconnected, no dispatcher finds it eligible again, whatever the rest of the session does. */
  lemma NeverChosenAgain(start: State, past: seq<Step>, s: State, c: ConsumerID, s1: State, steps: seq<Step>, s': State, q: Queue)
    requires Reachable(s, start, past) && Next(s, SDisconnect(c)) == Some(s1) && Continues(s1, steps, s')
    ensures c !in s'.consumers && c !in EligibleConsumers(s', q)
  {
    ReachableIsGood(start, past, s);
    StaysDeparted(s1, c, steps, s');
  }
}
