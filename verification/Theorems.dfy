/** What holds in every state that any run of the broker reaches. */
module Theorems {
  import opened Core
  import opened Log
  import opened Broker
  import opened Ownership
  import opened Counters
  import opened Durability
  import opened History
  import opened Safety

  // ---------------------------------------------------------------------------
  // Counters
  // ---------------------------------------------------------------------------

  /** In every reachable state, duplicates or not, every registered consumer is within its prefetch limit. */
  lemma PrefetchBound(start: State, steps: seq<Step>, s: State, c: ConsumerID)
    requires Reachable(s, start, steps) && c in s.consumers
    ensures 0 <= s.consumers[c].count <= s.consumers[c].prefetch
  {
    ReachableIsGood(start, steps, s);
    assert Balanced(s, c);
  }

  /** The dispatcher of the consumer's own queue has incremented its counter and not registered the message yet. */
  ghost predicate ChargedByDispatcher(s: State, c: ConsumerID)
    requires c in s.consumers
  {
    var q := s.consumers[c].queue;
    q in s.hands && s.hands[q].Charged? && s.hands[q].consumer == c
  }

  lemma OnlyOwnDispatcherCharges(s: State, c: ConsumerID)
    requires ChargesKnown(s) && c in s.consumers
    ensures CountWhere(s.hands, HandOf(c)) == One(ChargedByDispatcher(s, c))
  {
    var q := s.consumers[c].queue;
    assert KeysWhere(s.hands, HandOf(c)) == if ChargedByDispatcher(s, c) then {q} else {};
  }

  /** With no duplicate ID in memory the counter is exact under every interleaving. */
  lemma CounterExact(start: State, steps: seq<Step>, s: State, c: ConsumerID)
    requires Reachable(s, start, steps) && c in s.consumers && s.dups == {}
    ensures s.consumers[c].count
         == |set id | id in s.inFlight && s.inFlight[id].consumer == c|
          + One(ChargedByDispatcher(s, c))
          + |set r | r in s.removals && s.removals[r].entry.consumer == c|
  {
    ReachableIsGood(start, steps, s);
    assert Balanced(s, c);
    OnlyOwnDispatcherCharges(s, c);
    assert KeysWhere(s.inFlight, EntryOf(c)) == set id | id in s.inFlight && s.inFlight[id].consumer == c;
    assert KeysWhere(s.removals, RemovalOf(c)) == set r | r in s.removals && s.removals[r].entry.consumer == c;
  }

  // ---------------------------------------------------------------------------
  // Ownership
  // ---------------------------------------------------------------------------

  /** Every ID in memory that startup did not find twice is held in exactly one place, and within a topic once. */
  lemma SingleOwner(start: State, steps: seq<Step>, s: State, id: MessageID)
    requires Reachable(s, start, steps) && id !in s.dups
    ensures forall p, p' :: Holds(s, p, id) && Holds(s, p', id) ==> p == p'
    ensures id in s.owner ==> forall p :: Holds(s, p, id) <==> p == s.owner[id] && p != Gone
    ensures id !in s.owner ==> forall p :: !Holds(s, p, id)
    ensures id in s.home ==> id in s.owner
    ensures forall q, i, j :: InTopicAt(s.topics, q, i, id) && InTopicAt(s.topics, q, j, id) ==> i == j
  {
    ReachableIsGood(start, steps, s);
    forall q, i, j | InTopicAt(s.topics, q, i, id) && InTopicAt(s.topics, q, j, id) ensures i == j { }
  }

  // ---------------------------------------------------------------------------
  // Durability and history
  // ---------------------------------------------------------------------------

  /** Every (queue, id) written to a clean log without a tombstone on that queue is replayed, after any run including restarts. */
  lemma DurableRun(start: State, steps: seq<Step>, s: State, q: Queue, id: MessageID)
    requires Reachable(s, start, steps) && (q, id) in s.landed && (q, id) !in s.buried
    ensures id in Ids(Live(LogOf(s, q)))
  {
    ReachableIsGood(start, steps, s);
    DurableIsReplayed(s, q, id);
  }

  /** A message is delivered at most maxRetries + 1 times on its queue and at most once on each dead-letter queue. */
  lemma DeliveriesBounded(start: State, steps: seq<Step>, s: State, id: MessageID, depth: nat)
    requires Reachable(s, start, steps) && id in s.home
    ensures s.delivered[(DlqName(s.home[id], depth), id)] <= if depth == 0 then Budget(s.maxRetries) + 1 else 1
  {
    ReachableIsGood(start, steps, s);
    if depth == 0 {
      TrailAtHome(s.home[id], s.writes[id], s.maxRetries);
    } else {
      TrailOnDlq(s.home[id], s.writes[id], depth, s.maxRetries);
    }
  }

  /** How many negative outcomes of the message have taken effect. */
  ghost function Retries(s: State, p: Place, id: MessageID): nat
    requires id in s.writes
  {
    if Ahead(s, p) || s.writes[id] == 0 then s.writes[id] else s.writes[id] - 1
  }

  /**
   Wherever a published message is, its retry count and queue are the closed form of the number of its retries: the
   records written for it, less the first unless that is still to come.
   */
  lemma RetriesFollowForm(start: State, steps: seq<Step>, s: State, p: Place, m: Message)
    requires Reachable(s, start, steps) && HoldsMsg(s, p, m) && m.id in s.home
    ensures 0 <= m.retryCount <= Budget(s.maxRetries)
    ensures m.id in s.writes && HasForm(m, s.home[m.id], Retries(s, p, m.id), s.maxRetries)
  {
    ReachableIsGood(start, steps, s);
    assert Fits(s, p, m);
  }

  /** Over any interleaving, removals of an ID never outnumber its registrations. */
  lemma OneOutcomePerDelivery(start: State, steps: seq<Step>, s: State, q: Queue, id: MessageID)
    requires Reachable(s, start, steps)
    ensures s.removed[(q, id)] + One(Outstanding(s, q, id)) <= s.delivered[(q, id)]
    ensures id !in s.dups ==> s.removed[(q, id)] + One(Outstanding(s, q, id)) == s.delivered[(q, id)]
  {
    ReachableIsGood(start, steps, s);
  }

  // ---------------------------------------------------------------------------
  // What only a few steps change
  // ---------------------------------------------------------------------------

  /** Logs and the history of published messages are as before, but for a message published just now. */
  ghost predicate SameLogs(s: State, s': State) {
    && s'.logs == s.logs && s'.landed == s.landed && s'.buried == s.buried && s'.swallowed == s.swallowed
    && s'.dups == s.dups && s'.maxRetries == s.maxRetries && s.home.Keys <= s'.home.Keys
    && forall id :: id in s'.home ==> id !in s.issued || SameStory(s, s', id)
  }

  ghost predicate SameStory(s: State, s': State, id: MessageID) {
    && id in s.home && id in s'.home && s'.home[id] == s.home[id]
    && (id in s.content ==> id in s'.content && s'.content[id] == s.content[id])
    && (id in s.writes ==> id in s'.writes && s'.writes[id] == s.writes[id])
  }

  /** Only a short write tears a log in the middle of a session, and only a registration counts as a delivery. */
  ghost predicate SameElse(s: State, step: Step, s': State) {
    && SameLogs(s, s')
    && (step.SFailShort? || s'.torn == s.torn)
    && (step.SRegister? || s'.delivered == s.delivered)
  }

  ghost predicate Untouched(s: State, step: Step, s': State) {
    && s' == s.(torn := s'.torn, topics := s'.topics, hands := s'.hands, inFlight := s'.inFlight, tasks := s'.tasks,
                removals := s'.removals, consumers := s'.consumers, mailboxes := s'.mailboxes, closing := s'.closing,
                cancelled := s'.cancelled, closed := s'.closed, known := s'.known, owner := s'.owner,
                delivered := s'.delivered, removed := s'.removed)
    && (step.SFailShort? || s'.torn == s.torn)
    && (step.SRegister? || s'.delivered == s.delivered)
  }

  lemma PublishFrame(s: State, t: nat, m: Message, s': State)
    requires Publish(s, t, m) == Some(s')
    ensures SameElse(s, SPublish(t, m), s')
  {
  }

  lemma ManagerStepFrame(s: State, step: Step, s': State)
    requires IsManagerStep(step) && !step.SPublish? && ManagerNext(s, step) == Some(s')
    ensures Untouched(s, step, s')
  {
  }

  lemma OutcomeStepFrame(s: State, step: Step, s': State)
    requires IsOutcomeStep(step) && OutcomeNext(s, step) == Some(s')
    ensures Untouched(s, step, s')
  {
  }

  lemma QuietStepFrame(s: State, step: Step, s': State)
    requires IsQuietStep(step) && QuietNext(s, step) == Some(s')
    ensures Untouched(s, step, s')
  {
  }

  lemma HandStepFrame(s: State, step: Step, s': State)
    requires IsHandStep(step) && HandNext(s, step) == Some(s')
    ensures Untouched(s, step, s')
  {
  }

  lemma OutsideStepFrame(s: State, step: Step, s': State)
    requires OutsideNext(s, step) == Some(s')
    ensures Untouched(s, step, s')
  {
  }

  lemma PlainStepFrame(s: State, step: Step, s': State)
    requires !IsLogStep(step) && !step.SPublish? && Next(s, step) == Some(s')
    ensures Untouched(s, step, s')
  {
    if IsManagerStep(step) {
      ManagerStepFrame(s, step, s');
    } else if IsOutcomeStep(step) {
      OutcomeStepFrame(s, step, s');
    } else if IsQuietStep(step) {
      QuietStepFrame(s, step, s');
    } else if IsHandStep(step) {
      HandStepFrame(s, step, s');
    } else {
      OutsideStepFrame(s, step, s');
    }
  }

  lemma UntouchedIsSame(s: State, step: Step, s': State)
    requires Untouched(s, step, s')
    ensures SameElse(s, step, s')
  {
  }

  lemma StepFrame(s: State, step: Step, s': State)
    requires !IsLogStep(step) && Next(s, step) == Some(s')
    ensures SameElse(s, step, s')
  {
    if step.SPublish? {
      PublishFrame(s, step.t, step.m, s');
    } else {
      PlainStepFrame(s, step, s');
      UntouchedIsSame(s, step, s');
    }
  }

  /** Writing or compacting a log leaves the published messages, their deliveries and the duplicates as they are. */
  ghost predicate SameSession(s: State, s': State) {
    s' == s.(logs := s'.logs, torn := s'.torn, tasks := s'.tasks, landed := s'.landed, buried := s'.buried,
             owner := s'.owner, swallowed := s'.swallowed, writes := s'.writes)
  }

  lemma LandFrame(s: State, t: nat)
    requires t in s.tasks
    ensures SameSession(s, LandRecord(s, t)) && SameSession(s, SwallowRecord(s, t)) && SameSession(s, LandTombstone(s, t))
  {
  }

  lemma WriteFrame(s: State, t: nat, s': State)
    requires WriteRecord(s, t) == Some(s')
    ensures SameSession(s, s')
  {
    LandFrame(s, t);
  }

  lemma TombstoneFrame(s: State, t: nat, s': State)
    requires WriteTombstone(s, t) == Some(s')
    ensures SameSession(s, s')
  {
    LandFrame(s, t);
    assert SameSession(s, WithoutTask(s, t, Gone));
  }

  lemma LogStepFrame(s: State, step: Step, s': State)
    requires IsLogStep(step) && !step.SRestart? && LogNext(s, step) == Some(s')
    ensures SameSession(s, s')
  {
    if step.SWriteRecord? {
      WriteFrame(s, step.t, s');
    } else if step.SWriteTombstone? {
      TombstoneFrame(s, step.t, s');
    }
  }
}
