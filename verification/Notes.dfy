/**
 An observer of a run: it writes down, from the steps alone, what was sent to and received by each consumer, what each
 consumer asked for, and the clock readings and outcomes that messages saw. The theorems say that the state agrees.
 */
module Notes {
  import opened Core
  import opened Broker
  import opened Theorems
  import opened Safety

  /** What a consumer asks for when it subscribes. */
  datatype Request = Request(queue: Queue, prefetch: int32)

  datatype Notes = Notes(
    sent: map<ConsumerID, seq<Message>>,
    received: map<ConsumerID, seq<Message>>,
    requests: map<ConsumerID, Request>,
    clocks: map<MessageID, Instant>,
    finished: set<MessageID>,
    stamps: map<(MessageID, nat), Instant>)

  const BLANK: Notes := Notes(map[], map[], map[], map[], {}, map[])

  function ListOf(lists: map<ConsumerID, seq<Message>>, c: ConsumerID): seq<Message> { if c in lists then lists[c] else [] }

  function Listed(lists: map<ConsumerID, seq<Message>>, c: ConsumerID, m: Message): map<ConsumerID, seq<Message>> {
    lists[c := ListOf(lists, c) + [m]]
  }

  /** The clock reading of a negative outcome, numbered by the records written for the message before. */
  function Restamped(n: Notes, s: State, id: MessageID, now: Instant): Notes { n.(stamps := n.stamps[(id, WritesOf(s, id)) := now]) }

  /** What the observer adds for a step that is taken in `s`. */
  ghost function Noted(n: Notes, s: State, step: Step): Notes {
    match step
    case SPublish(t, m) => n.(stamps := n.stamps[(m.id, 0) := m.enqueueTime])
    case SRetry(t, now) => if t in s.tasks && !s.closing then Restamped(n, s, s.tasks[t].msg.id, now) else n
    case SConnect(c, q, requested) =>
      n.(requests := n.requests[c := Request(q, requested)], sent := n.sent[c := []], received := n.received[c := []])
    case SRegister(q, now) =>
      if q in s.hands && s.hands[q].Charged? then n.(clocks := n.clocks[s.hands[q].msg.id := now]) else n
    case SSend(q) =>
      if q in s.hands && s.hands[q].Sending? then n.(sent := Listed(n.sent, s.hands[q].consumer, s.hands[q].msg)) else n
    case SReceive(c) =>
      if c in s.mailboxes && s.mailboxes[c].msgs != [] then n.(received := Listed(n.received, c, s.mailboxes[c].msgs[0])) else n
    case STake(id, cause, r) => if cause.ByAck? || cause.ByExpiry? then n.(finished := n.finished + {id}) else n
    case SExpirePending(q, i, cutoff, t) =>
      if i < |TopicOf(s, q)| then n.(finished := n.finished + {TopicOf(s, q)[i].id}) else n
    case SRestart(tears, maxRetries) => BLANK
    case _ => n
  }

  /** The notes of a whole run: those of its last session. */
  ghost function NotesOf(start: State, steps: seq<Step>): Notes {
    if steps == [] then BLANK
    else
      var init := steps[..|steps| - 1];
      var before := Run(start, init);
      if before.None? then NotesOf(start, init) else Noted(NotesOf(start, init), before.value, steps[|steps| - 1])
  }

  // ---------------------------------------------------------------------------
  // What most steps leave alone
  // ---------------------------------------------------------------------------

  /** Entries only leave the in-flight map. */
  ghost predicate FlightShrinks(s: State, s': State) {
    forall id :: id in s'.inFlight ==> id in s.inFlight && s'.inFlight[id] == s.inFlight[id]
  }

  /** Consumers only leave, with queue and limit as they were, and channels keep their capacity. */
  ghost predicate ConsumersShrink(s: State, s': State) {
    && (forall c :: c in s'.consumers ==> c in s.consumers && SameTerms(s.consumers[c], s'.consumers[c]))
    && (forall c :: c in s.mailboxes ==> c in s'.mailboxes && s'.mailboxes[c].capacity == s.mailboxes[c].capacity)
    && (forall c :: c in s'.mailboxes ==> c in s.mailboxes)
  }

  predicate SameTerms(a: Consumer, b: Consumer) { b.queue == a.queue && b.prefetch == a.prefetch }

  ghost predicate Shrinks(s: State, step: Step, s': State) {
    (step.SRegister? || FlightShrinks(s, s')) && (step.SConnect? || ConsumersShrink(s, s'))
  }

  lemma ShrinksLog(s: State, step: Step, s': State)
    requires IsLogStep(step) && !step.SRestart? && LogNext(s, step) == Some(s')
    ensures Shrinks(s, step, s')
  {
    LogStepFrame(s, step, s');
  }

  lemma ShrinksManager(s: State, step: Step, s': State)
    requires IsManagerStep(step) && ManagerNext(s, step) == Some(s')
    ensures Shrinks(s, step, s')
  {
  }

  lemma ShrinksOutcome(s: State, step: Step, s': State)
    requires IsOutcomeStep(step) && OutcomeNext(s, step) == Some(s')
    ensures Shrinks(s, step, s')
  {
  }

  lemma ShrinksQuiet(s: State, step: Step, s': State)
    requires IsQuietStep(step) && QuietNext(s, step) == Some(s')
    ensures Shrinks(s, step, s')
  {
  }

  lemma ShrinksHand(s: State, step: Step, s': State)
    requires IsHandStep(step) && HandNext(s, step) == Some(s')
    ensures Shrinks(s, step, s')
  {
  }

  lemma ShrinksOutside(s: State, step: Step, s': State)
    requires OutsideNext(s, step) == Some(s')
    ensures Shrinks(s, step, s')
  {
  }

  lemma StepShrinks(s: State, step: Step, s': State)
    requires !step.SRestart? && Next(s, step) == Some(s')
    ensures Shrinks(s, step, s')
  {
    if IsLogStep(step) {
      ShrinksLog(s, step, s');
    } else if IsManagerStep(step) {
      ShrinksManager(s, step, s');
    } else if IsOutcomeStep(step) {
      ShrinksOutcome(s, step, s');
    } else if IsQuietStep(step) {
      ShrinksQuiet(s, step, s');
    } else if IsHandStep(step) {
      ShrinksHand(s, step, s');
    } else {
      ShrinksOutside(s, step, s');
    }
  }

  /** Which steps the observer writes down where. */
  lemma NotedOnly(n: Notes, s: State, step: Step)
    requires !step.SRestart?
    ensures step.SRegister? || Noted(n, s, step).clocks == n.clocks
    ensures step.SConnect? || Noted(n, s, step).requests == n.requests
    ensures step.SConnect? || step.SSend? || Noted(n, s, step).sent == n.sent
    ensures step.SConnect? || step.SReceive? || Noted(n, s, step).received == n.received
    ensures step.SPublish? || step.SRetry? || Noted(n, s, step).stamps == n.stamps
    ensures n.finished <= Noted(n, s, step).finished
  {
  }

  /** A new session starts with nothing in flight and nobody connected. */
  lemma AfterRestart(s: State, step: Step, s': State)
    requires step.SRestart? && Next(s, step) == Some(s')
    ensures s'.inFlight == map[] && s'.consumers == map[] && s'.mailboxes == map[] && s'.hands == map[]
    ensures s'.tasks == map[] && s'.removals == map[] && s'.home == map[] && s'.delivered == multiset{} && !s'.cancelled
  {
  }

  // ---------------------------------------------------------------------------
  // Clock readings of deliveries
  // ---------------------------------------------------------------------------

  /** Every entry carries the clock reading of its registration. */
  ghost predicate Clocked(s: State, n: Notes) {
    forall id :: id in s.inFlight ==>
      id in n.clocks && s.inFlight[id].msg.dispatchedAt == n.clocks[id] && s.inFlight[id].msg.status == Status.InFlight
  }

  lemma ClockedRegister(s: State, n: Notes, q: Queue, now: Instant, s': State)
    requires Clocked(s, n) && Register(s, q, now) == Some(s')
    ensures Clocked(s', Noted(n, s, SRegister(q, now)))
  {
  }

  lemma ClockedShrinks(s: State, n: Notes, s': State, n': Notes)
    requires Clocked(s, n) && FlightShrinks(s, s') && n'.clocks == n.clocks
    ensures Clocked(s', n')
  {
  }

  lemma ClockedStep(s: State, n: Notes, step: Step, s': State)
    requires Clocked(s, n) && Next(s, step) == Some(s')
    ensures Clocked(s', Noted(n, s, step))
  {
    if step.SRegister? {
      ClockedRegister(s, n, step.q, step.now, s');
    } else if step.SRestart? {
      AfterRestart(s, step, s');
    } else {
      StepShrinks(s, step, s');
      NotedOnly(n, s, step);
      ClockedShrinks(s, n, s', Noted(n, s, step));
    }
  }

  // ---------------------------------------------------------------------------
  // What consumers asked for
  // ---------------------------------------------------------------------------

  function AtLeastOne(n: int32): int32 { if n < 1 then 1 else n }

  /** Every consumer has the queue and the limit it asked for, but at least one, and a channel with as much room. */
  ghost predicate Granted(s: State, n: Notes) {
    forall c :: c in s.consumers ==>
      && c in n.requests && s.consumers[c].queue == n.requests[c].queue
      && s.consumers[c].prefetch == AtLeastOne(n.requests[c].prefetch)
      && c in s.mailboxes && s.mailboxes[c].capacity == AtLeastOne(n.requests[c].prefetch)
  }

  lemma GrantedConnect(s: State, n: Notes, c: ConsumerID, q: Queue, requested: int32, s': State)
    requires Granted(s, n) && Connect(s, c, q, requested) == Some(s')
    ensures Granted(s', Noted(n, s, SConnect(c, q, requested)))
  {
  }

  lemma GrantedShrinks(s: State, n: Notes, s': State, n': Notes)
    requires Granted(s, n) && ConsumersShrink(s, s') && n'.requests == n.requests
    ensures Granted(s', n')
  {
  }

  lemma GrantedStep(s: State, n: Notes, step: Step, s': State)
    requires Granted(s, n) && Next(s, step) == Some(s')
    ensures Granted(s', Noted(n, s, step))
  {
    if step.SConnect? {
      GrantedConnect(s, n, step.c, step.q, step.requested, s');
    } else if step.SRestart? {
      AfterRestart(s, step, s');
    } else {
      StepShrinks(s, step, s');
      NotedOnly(n, s, step);
      GrantedShrinks(s, n, s', Noted(n, s, step));
    }
  }

  // ---------------------------------------------------------------------------
  // Tombstones follow acknowledgements and expiries only
  // ---------------------------------------------------------------------------

  /** What is on its way to a tombstone, or has one, was acknowledged or had expired. */
  ghost predicate BuriedForCause(s: State, n: Notes) {
    && (forall t :: t in s.tasks && s.tasks[t].Burying? ==> s.tasks[t].msg.id in n.finished)
    && (forall r :: r in s.removals && s.removals[r].after.Bury? ==> s.removals[r].entry.msg.id in n.finished)
    && (forall q, id :: id in s.home && (q, id) in s.buried ==> id in n.finished)
  }

  /** Nothing new is on its way to a tombstone, and none was written. */
  lemma CauseFrame(s: State, n: Notes, s': State, n': Notes)
    requires BuriedForCause(s, n) && n.finished <= n'.finished
    requires forall t :: t in s'.tasks && s'.tasks[t].Burying? ==> t in s.tasks && s.tasks[t] == s'.tasks[t]
    requires forall r :: r in s'.removals && s'.removals[r].after.Bury? ==> r in s.removals && s.removals[r] == s'.removals[r]
    requires forall q, id :: id in s'.home && (q, id) in s'.buried ==> id in s.home && (q, id) in s.buried
    ensures BuriedForCause(s', n')
  {
    forall t | t in s'.tasks && s'.tasks[t].Burying? ensures s'.tasks[t].msg.id in n'.finished {
      assert s.tasks[t].Burying?;
    }
    forall r | r in s'.removals && s'.removals[r].after.Bury? ensures s'.removals[r].entry.msg.id in n'.finished {
      assert s.removals[r].after.Bury?;
    }
  }

  lemma CauseSwallow(s: State, n: Notes, t: nat, s': State)
    requires BuriedForCause(s, n) && t in s.tasks && s' == SwallowRecord(s, t)
    ensures BuriedForCause(s', n)
  {
    CauseFrame(s, n, s', n);
  }

  lemma CauseLand(s: State, n: Notes, t: nat, s': State)
    requires BuriedForCause(s, n) && t in s.tasks && s' == LandRecord(s, t)
    ensures BuriedForCause(s', n)
  {
    CauseFrame(s, n, s', n);
  }

  lemma CauseWrite(s: State, n: Notes, t: nat, s': State)
    requires BuriedForCause(s, n) && WriteRecord(s, t) == Some(s')
    ensures BuriedForCause(s', n)
  {
    if s.tasks[t].msg.queue in s.torn { CauseSwallow(s, n, t, s'); } else { CauseLand(s, n, t, s'); }
  }

  lemma CauseBury(s: State, n: Notes, t: nat, s': State)
    requires BuriedForCause(s, n) && IsBurying(s, t) && s' == LandTombstone(s, t)
    ensures BuriedForCause(s', n)
  {
  }

  lemma CauseTombstone(s: State, n: Notes, t: nat, s': State)
    requires BuriedForCause(s, n) && WriteTombstone(s, t) == Some(s')
    ensures BuriedForCause(s', n)
  {
    if s.tasks[t].msg.queue in s.torn { CauseFrame(s, n, s', n); } else { CauseBury(s, n, t, s'); }
  }

  lemma CauseLog(s: State, n: Notes, step: Step, s': State)
    requires BuriedForCause(s, n) && IsLogStep(step) && !step.SRestart? && LogNext(s, step) == Some(s')
    ensures BuriedForCause(s', n)
  {
    if step.SWriteRecord? {
      CauseWrite(s, n, step.t, s');
    } else if step.SWriteTombstone? {
      CauseTombstone(s, n, step.t, s');
    } else {
      CauseFrame(s, n, s', n);
    }
  }

  lemma CausePublish(s: State, n: Notes, t: nat, m: Message, s': State, n': Notes)
    requires BuriedForCause(s, n) && Good(s) && Publish(s, t, m) == Some(s') && n.finished <= n'.finished
    ensures BuriedForCause(s', n')
  {
    assert forall q :: (q, m.id) !in s.buried;
    CauseFrame(s, n, s', n');
  }

  lemma CauseManager(s: State, n: Notes, step: Step, s': State, n': Notes)
    requires BuriedForCause(s, n) && Good(s) && IsManagerStep(step) && ManagerNext(s, step) == Some(s')
    requires n.finished <= n'.finished
    ensures BuriedForCause(s', n')
  {
    if step.SPublish? { CausePublish(s, n, step.t, step.m, s', n'); } else { CauseFrame(s, n, s', n'); }
  }

  lemma CauseTake(s: State, n: Notes, id: MessageID, cause: Cause, r: nat, s': State)
    requires BuriedForCause(s, n) && Good(s) && Take(s, id, cause, r) == Some(s')
    ensures BuriedForCause(s', Noted(n, s, STake(id, cause, r)))
  {
    assert s.inFlight[id].msg.id == id;
  }

  lemma CauseDecrement(s: State, n: Notes, r: nat, t: nat, s': State)
    requires BuriedForCause(s, n) && Decrement(s, r, t) == Some(s')
    ensures BuriedForCause(s', n)
  {
  }

  lemma CauseExpire(s: State, n: Notes, q: Queue, i: nat, cutoff: Instant, t: nat, s': State)
    requires BuriedForCause(s, n) && ExpirePending(s, q, i, cutoff, t) == Some(s')
    ensures BuriedForCause(s', Noted(n, s, SExpirePending(q, i, cutoff, t)))
  {
  }

  lemma CauseOutcome(s: State, n: Notes, step: Step, s': State)
    requires BuriedForCause(s, n) && Good(s) && IsOutcomeStep(step) && OutcomeNext(s, step) == Some(s')
    ensures BuriedForCause(s', Noted(n, s, step))
  {
    NotedOnly(n, s, step);
    if step.STake? {
      CauseTake(s, n, step.id, step.cause, step.r, s');
    } else if step.SDecrement? {
      CauseDecrement(s, n, step.r, step.t, s');
    } else if step.SExpirePending? {
      CauseExpire(s, n, step.q, step.i, step.cutoff, step.t, s');
    } else {
      CauseOther(s, n, step, s', Noted(n, s, step));
    }
  }

  lemma CauseOther(s: State, n: Notes, step: Step, s': State, n': Notes)
    requires BuriedForCause(s, n) && (step.SForget? || step.SRetry?) && OutcomeNext(s, step) == Some(s') && n.finished <= n'.finished
    ensures BuriedForCause(s', n')
  {
    CauseFrame(s, n, s', n');
  }

  lemma CauseHand(s: State, n: Notes, step: Step, s': State, n': Notes)
    requires BuriedForCause(s, n) && IsHandStep(step) && HandNext(s, step) == Some(s') && n.finished <= n'.finished
    ensures BuriedForCause(s', n')
  {
    CauseFrame(s, n, s', n');
  }

  lemma CauseQuiet(s: State, n: Notes, step: Step, s': State, n': Notes)
    requires BuriedForCause(s, n) && IsQuietStep(step) && QuietNext(s, step) == Some(s') && n.finished <= n'.finished
    ensures BuriedForCause(s', n')
  {
    CauseFrame(s, n, s', n');
  }

  lemma CauseOutside(s: State, n: Notes, step: Step, s': State, n': Notes)
    requires BuriedForCause(s, n) && OutsideNext(s, step) == Some(s') && n.finished <= n'.finished
    ensures BuriedForCause(s', n')
  {
    CauseFrame(s, n, s', n');
  }

  lemma CauseLess(s: State, n: Notes, n': Notes)
    requires BuriedForCause(s, n) && n.finished <= n'.finished
    ensures BuriedForCause(s, n')
  {
    CauseFrame(s, n, s, n');
  }

  lemma CauseStep(s: State, n: Notes, step: Step, s': State)
    requires BuriedForCause(s, n) && Good(s) && Next(s, step) == Some(s')
    ensures BuriedForCause(s', Noted(n, s, step))
  {
    var n' := Noted(n, s, step);
    if step.SRestart? {
      AfterRestart(s, step, s');
    } else {
      NotedOnly(n, s, step);
      if IsLogStep(step) {
        CauseLog(s, n, step, s');
        CauseLess(s', n, n');
      } else if IsManagerStep(step) {
        CauseManager(s, n, step, s', n');
      } else if IsOutcomeStep(step) {
        CauseOutcome(s, n, step, s');
      } else if IsQuietStep(step) {
        CauseQuiet(s, n, step, s', n');
      } else if IsHandStep(step) {
        CauseHand(s, n, step, s', n');
      } else {
        CauseOutside(s, n, step, s', n');
      }
    }
  }

  // ---------------------------------------------------------------------------
  // Every run
  // ---------------------------------------------------------------------------

  ghost predicate Observed(s: State, n: Notes) { Clocked(s, n) && Granted(s, n) && BuriedForCause(s, n) }

  lemma ObservedStart(s: State)
    requires Initial(s)
    ensures Observed(s, BLANK)
  {
  }

  lemma {:induction false} ReachableIsObserved(start: State, steps: seq<Step>, s: State)
    requires Reachable(s, start, steps)
    ensures Observed(s, NotesOf(start, steps))
  {
    if steps == [] {
      ObservedStart(s);
    } else {
      var init, last := steps[..|steps| - 1], steps[|steps| - 1];
      var before, n := Run(start, init).value, NotesOf(start, init);
      ReachableIsObserved(start, init, before);
      ReachableIsGood(start, init, before);
      ClockedStep(before, n, last, s);
      GrantedStep(before, n, last, s);
      CauseStep(before, n, last, s);
    }
  }

  /** In flight, a message carries the clock reading of its registration: a scan takes it exactly if that is older. */
  lemma TimeoutTakesExactly(start: State, steps: seq<Step>, s: State, id: MessageID, threshold: Instant, r: nat)
    requires Reachable(s, start, steps) && id in s.inFlight && r !in s.removals
    ensures id in NotesOf(start, steps).clocks && s.inFlight[id].msg.status == Status.InFlight
    ensures Take(s, id, ByTimeout(threshold), r).Some? <==> NotesOf(start, steps).clocks[id] < threshold
  {
    ReachableIsObserved(start, steps, s);
  }

  /** Every registered consumer is within the limit it asked for, but for a limit below one, which counts as one. */
  lemma RequestBound(start: State, steps: seq<Step>, s: State, c: ConsumerID)
    requires Reachable(s, start, steps) && c in s.consumers
    ensures c in NotesOf(start, steps).requests
    ensures 0 <= s.consumers[c].count <= AtLeastOne(NotesOf(start, steps).requests[c].prefetch)
    ensures s.consumers[c].prefetch == AtLeastOne(NotesOf(start, steps).requests[c].prefetch)
  {
    ReachableIsObserved(start, steps, s);
    PrefetchBound(start, steps, s, c);
  }

  /** A message published in this session is tombstoned only if it was acknowledged or had expired. */
  lemma TombstoneHasCause(start: State, steps: seq<Step>, s: State, q: Queue, id: MessageID)
    requires Reachable(s, start, steps) && id in s.home && (q, id) in s.buried
    ensures id in NotesOf(start, steps).finished
  {
    ReachableIsObserved(start, steps, s);
  }
}
