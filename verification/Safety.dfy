/** The invariant of the running broker, kept by every step, and the safety theorems over whole runs. */
module Safety {
  import opened Core
  import opened Broker
  import opened Ownership
  import opened Counters
  import opened Durability
  import opened History
  import opened HistorySteps

  ghost predicate Good(s: State) { Routed(s) && Owned(s) && Counted(s) && Durable(s) && Historic(s) }

  // ---------------------------------------------------------------------------
  // Manager.Enqueue and Manager.WriteTombstone
  // ---------------------------------------------------------------------------

  lemma GoodPublish(s: State, t: nat, m: Message, s': State)
    requires Good(s) && Publish(s, t, m) == Some(s')
    ensures Good(s')
  {
    RoutedTasks(s, s');
    OwnedPublish(s, t, m, s');
    CountedFrame(s, s');
    DurableFrame(s, s');
    SettledPublish(s, t, m, s');
    OutcomesFrame(s, s');
  }

  lemma GoodNewTopic(s: State, q: Queue, s': State)
    requires Good(s) && q !in s.topics && s' == WithTopic(s, q, [])
    ensures Good(s')
  {
    OwnedNewTopic(s, q, s');
    CountedFrame(s, s');
    DurableFrame(s, s');
    HistoricNewTopic(s, q, s');
  }

  lemma GoodWithQueue(s: State, q: Queue)
    requires Good(s)
    ensures Good(WithQueue(s, q)) && q in WithQueue(s, q).topics
  {
    if q !in s.topics {
      WithQueueIsEmpty(s, q);
      GoodNewTopic(s, q, WithTopic(s, q, []));
    }
  }

  lemma GoodReady(s: State, t: nat, s': State)
    requires Good(s) && t in s.tasks && s.tasks[t].Checked? && s.tasks[t].msg.queue in s.topics
    requires s' == WithTask(s, t, Ready(s.tasks[t].msg))
    ensures Good(s')
  {
    OwnedTaskKept(s, s', t);
    CountedFrame(s, s');
    DurableFrame(s, s');
    SettledReady(s, t, s');
    OutcomesFrame(s, s');
  }

  lemma GoodInitQueue(s: State, t: nat, s': State)
    requires Good(s) && InitQueue(s, t) == Some(s')
    ensures Good(s')
  {
    GoodWithQueue(s, s.tasks[t].msg.queue);
    GoodReady(WithQueue(s, s.tasks[t].msg.queue), t, s');
  }

  lemma GoodLandRecord(s: State, t: nat, s': State)
    requires Good(s) && IsReady(s, t) && s' == LandRecord(s, t)
    ensures Good(s')
  {
    RoutedLandRecord(s, t, s');
    assert Holds(s, AtTask(t), s.tasks[t].msg.id);
    OwnedTaskKept(s, s', t);
    CountedFrame(s, s');
    DurableLandRecord(s, t, s');
    LandCopies(s, t, s');
    SettledWrote(s, t, s');
    OutcomesFrame(s, s');
  }

  lemma GoodSwallowRecord(s: State, t: nat, s': State)
    requires Good(s) && IsReady(s, t) && s' == SwallowRecord(s, t)
    ensures Good(s')
  {
    RoutedTasks(s, s');
    OwnedTaskKept(s, s', t);
    CountedFrame(s, s');
    DurableFrame(s, s');
    SwallowCopies(s, t, s');
    SettledWrote(s, t, s');
    OutcomesFrame(s, s');
  }

  lemma GoodWriteRecord(s: State, t: nat, s': State)
    requires Good(s) && WriteRecord(s, t) == Some(s')
    ensures Good(s')
  {
    if s.tasks[t].msg.queue in s.torn { GoodSwallowRecord(s, t, s'); } else { GoodLandRecord(s, t, s'); }
  }

  /** The operation ends, and its message leaves memory; the file may have got part of a frame. */
  lemma GoodTaskEnd(s: State, t: nat, s': State)
    requires Good(s) && t in s.tasks && s' == WithoutTask(s, t, Gone).(torn := s'.torn)
    ensures Good(s')
  {
    RoutedTasks(s, s');
    OwnedTaskGone(s, s', t);
    CountedFrame(s, s');
    DurableFrame(s, s');
    SettledTaskEnd(s, t, s');
    OutcomesFrame(s, s');
  }

  lemma GoodEnterTopic(s: State, t: nat, s': State)
    requires Good(s) && EnterTopic(s, t) == Some(s')
    ensures Good(s')
  {
    RoutedEnterTopic(s, t, s');
    OwnedEnterTopic(s, t, s');
    DistinctEnterTopic(s, t, s');
    CountedFrame(s, s');
    DurableFrame(s, s');
    SettledEnterTopic(s, t, s');
    OutcomesFrame(s, s');
  }

  lemma GoodLandTombstone(s: State, t: nat, s': State)
    requires Good(s) && IsBurying(s, t) && s' == LandTombstone(s, t)
    ensures Good(s')
  {
    RoutedLandTombstone(s, t, s');
    assert Holds(s, AtTask(t), s.tasks[t].msg.id);
    OwnedTaskGone(s, s', t);
    CountedFrame(s, s');
    DurableLandTombstone(s, t, s');
    SettledLandTombstone(s, t, s');
    OutcomesFrame(s, s');
  }

  lemma GoodWriteTombstone(s: State, t: nat, s': State)
    requires Good(s) && WriteTombstone(s, t) == Some(s')
    ensures Good(s')
  {
    if s.tasks[t].msg.queue in s.torn { GoodTaskEnd(s, t, s'); } else { GoodLandTombstone(s, t, s'); }
  }

  // ---------------------------------------------------------------------------
  // Dispatcher.Run
  // ---------------------------------------------------------------------------

  lemma GoodDequeue(s: State, q: Queue, s': State)
    requires Good(s) && Dequeue(s, q) == Some(s')
    ensures Good(s')
  {
    RoutedDequeue(s, q, s');
    OwnedDequeue(s, q, s');
    DistinctDequeue(s, q, s');
    CountedHand(s, s', q, s'.hands[q]);
    DurableFrame(s, s');
    SettledDequeue(s, q, s');
    OutcomesFrame(s, s');
  }

  /** Dispatcher steps that neither take nor lose a message. */
  lemma GoodHand(s: State, s': State, q: Queue, pc: Pc)
    requires Good(s) && s' == WithHand(s, q, pc).(mailboxes := s'.mailboxes)
    requires !pc.Charged? && (q in s.hands ==> !s.hands[q].Charged?)
    requires pc.Choosing? ==> pc.eligible <= EligibleConsumers(s, q)
    requires if q in s.hands && InHand(s.hands[q]) then InHand(pc) && pc.msg == s.hands[q].msg else !InHand(pc)
    ensures Good(s')
  {
    OwnedFrame(s, s');
    CountedHand(s, s', q, pc);
    DurableFrame(s, s');
    HistoricFrame(s, s');
  }

  lemma GoodCharge(s: State, q: Queue, c: ConsumerID, s': State)
    requires Good(s) && Charge(s, q, c) == Some(s')
    ensures Good(s')
  {
    RoutedHand(s, s', q, s'.hands[q]);
    OwnedFrame(s, s');
    CountedCharge(s, q, c, s');
    DurableFrame(s, s');
    HistoricFrame(s, s');
  }

  lemma GoodRegister(s: State, q: Queue, now: Instant, s': State)
    requires Good(s) && Register(s, q, now) == Some(s')
    ensures Good(s')
  {
    RoutedHand(s, s', q, s'.hands[q]);
    HandIsNotInFlight(s, q);
    OwnedRegister(s, q, now, s');
    CountedRegister(s, q, now, s');
    DurableFrame(s, s');
    SettledRegister(s, q, now, s');
    RegisterOutcomes(s, q, now, s');
  }

  lemma GoodAbandon(s: State, q: Queue, s': State)
    requires Good(s) && Abandon(s, q) == Some(s')
    ensures Good(s')
  {
    RoutedHand(s, s', q, Stopped);
    OwnedAbandon(s, q, s');
    CountedHand(s, s', q, Stopped);
    DurableFrame(s, s');
    SettledAbandon(s, q, s');
    OutcomesFrame(s, s');
  }

  lemma GoodTaken(s: State, id: MessageID, r: nat, after: After, s': State)
    requires Good(s) && id in s.inFlight && r !in s.removals && s' == Taken(s, id, r, after)
    ensures Good(s')
  {
    OwnedTaken(s, id, r, after);
    CountedTaken(s, id, r, after);
    DurableFrame(s, s');
    SettledTaken(s, id, r, after, s');
    TakenOutcomes(s, id, r, after);
  }

  lemma GoodCancelSend(s: State, q: Queue, r: nat, s': State)
    requires Good(s) && CancelSend(s, q, r) == Some(s')
    ensures Good(s')
  {
    var s1, id := WithHand(s, q, Stopped), s.hands[q].msg.id;
    GoodHand(s, s1, q, Stopped);
    if id in s.inFlight { GoodTaken(s1, id, r, Drop, s'); }
  }

  // ---------------------------------------------------------------------------
  // AckManager
  // ---------------------------------------------------------------------------

  lemma GoodDecrement(s: State, r: nat, t: nat, s': State)
    requires Good(s) && Decrement(s, r, t) == Some(s')
    ensures Good(s')
  {
    RoutedTasks(s, s');
    OwnedDecrement(s, r, t, s');
    CountedUncharged(s, s', r);
    DurableFrame(s, s');
    SettledDecrement(s, r, t, s');
    OutcomesFrame(s, s');
  }

  lemma GoodForget(s: State, r: nat, s': State)
    requires Good(s) && Forget(s, r) == Some(s')
    ensures Good(s')
  {
    RoutedTasks(s, s');
    OwnedForget(s, r, s');
    CountedUncharged(s, s', r);
    DurableFrame(s, s');
    SettledForget(s, r, s');
    OutcomesFrame(s, s');
  }

  lemma GoodRequeue(s: State, t: nat, now: Instant, s': State)
    requires Good(s) && Retry(s, t, now) == Some(s') && !s.closing
    ensures Good(s')
  {
    RoutedTasks(s, s');
    OwnedTaskKept(s, s', t);
    CountedFrame(s, s');
    DurableFrame(s, s');
    SettledRetry(s, t, now, s');
    OutcomesFrame(s, s');
  }

  lemma GoodExpirePending(s: State, q: Queue, i: nat, cutoff: Instant, t: nat, s': State)
    requires Good(s) && ExpirePending(s, q, i, cutoff, t) == Some(s')
    ensures Good(s')
  {
    RoutedExpirePending(s, q, i, cutoff, t, s');
    OwnedExpirePending(s, q, i, cutoff, t, s');
    DistinctRemove(s, s', q, i);
    CountedFrame(s, s');
    DurableFrame(s, s');
    SettledExpirePending(s, q, i, cutoff, t, s');
    OutcomesFrame(s, s');
  }

  // ---------------------------------------------------------------------------
  // Consumers, shutdown, compaction, restart
  // ---------------------------------------------------------------------------

  /** Steps that touch neither messages nor logs. */
  lemma GoodAround(s: State, s': State)
    requires Good(s) && Counted(s')
    requires s' == s.(consumers := s'.consumers, known := s'.known, mailboxes := s'.mailboxes,
                      closing := s'.closing, cancelled := s'.cancelled, closed := s'.closed)
    ensures Good(s')
  {
    OwnedFrame(s, s');
    DurableFrame(s, s');
    HistoricFrame(s, s');
  }

  lemma GoodCompactLog(s: State, q: Queue, s': State)
    requires Good(s) && CompactLog(s, q) == Some(s')
    ensures Good(s')
  {
    ProperLive(LogOf(s, q), q);
    RoutedLog(s, s', q);
    OwnedFrame(s, s');
    CountedFrame(s, s');
    DurableCompact(s, q, s');
    HistoricCompact(s, q, s');
  }

  lemma GoodBoot(s: State)
    requires ProperLogs(s.logs) && Durable(s)
    requires s == Boot(s.maxRetries, s.logs, s.torn, s.issued, s.known, s.landed, s.buried)
    ensures Good(s)
  {
    RoutedBoot(s);
    OwnedBoot(s);
  }

  lemma GoodRestart(s: State, tears: map<Queue, Tear>, maxRetries: int32, s': State)
    requires Good(s) && s' == Restart(s, tears, maxRetries)
    ensures Good(s')
  {
    DurableFrame(s, s');
    GoodBoot(s');
  }

  // ---------------------------------------------------------------------------
  // Every step, every run
  // ---------------------------------------------------------------------------

  lemma GoodLogStep(s: State, step: Step, s': State)
    requires Good(s) && IsLogStep(step) && LogNext(s, step) == Some(s')
    ensures Good(s')
  {
    if step.SWriteRecord? {
      GoodWriteRecord(s, step.t, s');
    } else if step.SWriteTombstone? {
      GoodWriteTombstone(s, step.t, s');
    } else if step.SCompactLog? {
      GoodCompactLog(s, step.q, s');
    } else {
      GoodRestart(s, step.tears, step.maxRetries, s');
    }
  }

  lemma GoodManagerStep(s: State, step: Step, s': State)
    requires Good(s) && IsManagerStep(step) && ManagerNext(s, step) == Some(s')
    ensures Good(s')
  {
    if step.SPublish? {
      GoodPublish(s, step.t, step.m, s');
    } else if step.SInitQueue? {
      GoodInitQueue(s, step.t, s');
    } else if step.SEnterTopic? {
      GoodEnterTopic(s, step.t, s');
    } else {
      GoodTaskEnd(s, step.t, s');
    }
  }

  lemma GoodRetry(s: State, t: nat, now: Instant, s': State)
    requires Good(s) && Retry(s, t, now) == Some(s')
    ensures Good(s')
  {
    if s.closing { GoodTaskEnd(s, t, s'); } else { GoodRequeue(s, t, now, s'); }
  }

  lemma GoodOutcomeStep(s: State, step: Step, s': State)
    requires Good(s) && IsOutcomeStep(step) && OutcomeNext(s, step) == Some(s')
    ensures Good(s')
  {
    if step.STake? {
      GoodTaken(s, step.id, step.r, AfterOf(step.cause), s');
    } else if step.SDecrement? {
      GoodDecrement(s, step.r, step.t, s');
    } else if step.SForget? {
      GoodForget(s, step.r, s');
    } else if step.SRetry? {
      GoodRetry(s, step.t, step.now, s');
    } else {
      GoodExpirePending(s, step.q, step.i, step.cutoff, step.t, s');
    }
  }

  lemma GoodQuietStep(s: State, step: Step, s': State)
    requires Good(s) && IsQuietStep(step) && QuietNext(s, step) == Some(s')
    ensures Good(s')
  {
    GoodHand(s, s', step.q, s'.hands[step.q]);
  }

  lemma GoodHandStep(s: State, step: Step, s': State)
    requires Good(s) && IsHandStep(step) && HandNext(s, step) == Some(s')
    ensures Good(s')
  {
    if step.SInitForDequeue? {
      GoodWithQueue(s, step.q);
    } else if step.SDequeue? {
      GoodDequeue(s, step.q, s');
    } else if step.SCharge? {
      GoodCharge(s, step.q, step.c, s');
    } else if step.SRegister? {
      GoodRegister(s, step.q, step.now, s');
    } else if step.SAbandon? {
      GoodAbandon(s, step.q, s');
    } else {
      GoodCancelSend(s, step.q, step.r, s');
    }
  }

  lemma GoodConnect(s: State, c: ConsumerID, q: Queue, requested: int32, s': State)
    requires Good(s) && Connect(s, c, q, requested) == Some(s')
    ensures Good(s')
  {
    CountedConnect(s, c, q, requested, s');
    GoodAround(s, s');
  }

  lemma GoodDisconnect(s: State, c: ConsumerID, s': State)
    requires Good(s) && Disconnect(s, c) == Some(s')
    ensures Good(s')
  {
    CountedDisconnect(s, c, s');
    GoodAround(s, s');
  }

  lemma GoodFlag(s: State, s': State)
    requires Good(s)
    requires s' == s.(mailboxes := s'.mailboxes, closing := s'.closing, cancelled := s'.cancelled, closed := s'.closed)
    ensures Good(s')
  {
    CountedFrame(s, s');
    GoodAround(s, s');
  }

  lemma GoodOutsideStep(s: State, step: Step, s': State)
    requires Good(s) && OutsideNext(s, step) == Some(s')
    ensures Good(s')
  {
    if step.SConnect? {
      GoodConnect(s, step.c, step.q, step.requested, s');
    } else if step.SDisconnect? {
      GoodDisconnect(s, step.c, s');
    } else {
      GoodFlag(s, s');
    }
  }

  /** Every step of every goroutine keeps the whole invariant. */
  lemma StepKeepsGood(s: State, step: Step, s': State)
    requires Good(s) && Next(s, step) == Some(s')
    ensures Good(s')
  {
    if IsLogStep(step) {
      GoodLogStep(s, step, s');
    } else if IsManagerStep(step) {
      GoodManagerStep(s, step, s');
    } else if IsOutcomeStep(step) {
      GoodOutcomeStep(s, step, s');
    } else if IsQuietStep(step) {
      GoodQuietStep(s, step, s');
    } else if IsHandStep(step) {
      GoodHandStep(s, step, s');
    } else {
      GoodOutsideStep(s, step, s');
    }
  }

  lemma InitialIsGood(s: State)
    requires Initial(s)
    ensures Good(s)
  {
    DurableInitial(s);
    GoodBoot(s);
  }

  lemma {:induction false} ReachableIsGood(start: State, steps: seq<Step>, s: State)
    requires Reachable(s, start, steps)
    ensures Good(s)
  {
    if steps == [] {
      InitialIsGood(s);
    } else {
      var init, last := steps[..|steps| - 1], steps[|steps| - 1];
      var before := Run(start, init).value;
      ReachableIsGood(start, init, before);
      StepKeepsGood(before, last, s);
    }
  }
}
