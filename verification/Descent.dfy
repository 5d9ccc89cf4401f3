/** Where a message in memory comes from: within a session it is new, or was in memory one step before. */
module Descent {
  import opened Core
  import opened Broker
  import opened Ownership
  import opened History

  /** A single position that can hold a message. */
  datatype Spot = OnTask(t: nat) | OnRemoval(r: nat) | OnTopic(q: Queue, i: nat) | OnHand(hand: Queue) | OnFlight(id: MessageID)

  ghost function At(s: State, o: Spot): Option<Message> {
    match o
    case OnTask(t) => if t in s.tasks then Some(s.tasks[t].msg) else None
    case OnRemoval(r) => if r in s.removals then Some(s.removals[r].entry.msg) else None
    case OnTopic(q, i) => if q in s.topics && i < |s.topics[q]| then Some(s.topics[q][i]) else None
    case OnHand(q) => if q in s.hands && InHand(s.hands[q]) then Some(s.hands[q].msg) else None
    case OnFlight(id) => if id in s.inFlight then Some(s.inFlight[id].msg) else None
  }

  lemma SpotOf(s: State, p: Place, m: Message) returns (o: Spot)
    requires HoldsMsg(s, p, m)
    ensures At(s, o) == Some(m)
  {
    match p
    case AtTask(t) => o := OnTask(t);
    case AtRemoval(r) => o := OnRemoval(r);
    case AtTopic(q) => var i :| 0 <= i < |s.topics[q]| && s.topics[q][i] == m; o := OnTopic(q, i);
    case AtHand(q) => o := OnHand(q);
    case AtFlight => o := OnFlight(m.id);
  }

  lemma PlaceOf(s: State, o: Spot) returns (p: Place)
    requires FlightKeyed(s) && At(s, o).Some?
    ensures HoldsMsg(s, p, At(s, o).value)
  {
    match o
    case OnTask(t) => p := AtTask(t);
    case OnRemoval(r) => p := AtRemoval(r);
    case OnTopic(q, i) => p := AtTopic(q);
    case OnHand(q) => p := AtHand(q);
    case OnFlight(id) => p := AtFlight;
  }

  /**
   How a step moves messages: not at all, a new one into `b`, one from `a` to `b`, or one out of a topic, whose rest
   closes the gap. The message at `b` may be turned into its retry or dead letter, or its record be written.
   */
  datatype Move = Stay | Fresh(b: Spot) | Turn(b: Spot) | Log(b: Spot) | Carry(a: Spot, b: Spot) | Pull(q: Queue, i: nat, b: Spot)

  /** Which steps make which moves. */
  predicate MoveOf(step: Step, mv: Move) {
    (mv.Fresh? ==> step.SPublish?) && (mv.Turn? ==> step.SRetry?) && (mv.Log? ==> step.SWriteRecord?)
  }

  function Back(mv: Move, o: Spot): Spot {
    match mv
    case Stay => o
    case Fresh(b) => o
    case Turn(b) => o
    case Log(b) => o
    case Carry(a, b) => if o == b then a else o
    case Pull(q, i, b) =>
      if o == b then OnTopic(q, i)
      else if o.OnTopic? && o.q == q && o.i >= i then OnTopic(q, o.i + 1)
      else o
  }

  /** `m'` is `m`, on the same queue or one level down, with the same content. */
  ghost predicate From(m: Message, m': Message) {
    m.id == m'.id && ContentOf(m) == ContentOf(m') && (m'.queue == m.queue || m'.queue == m.queue + DLQ_SUFFIX)
  }

  /** Only delivery time and status may differ. */
  ghost predicate Same(m: Message, m': Message) {
    m.id == m'.id && ContentOf(m) == ContentOf(m') && m'.queue == m.queue && m'.enqueueTime == m.enqueueTime
  }

  /** The message at the spot is inside `Enqueue` and its record is still to be written. */
  ghost predicate AheadAt(s: State, o: Spot) { o.OnTask? && Ahead(s, AtTask(o.t)) }

  /** A message published by the step. */
  ghost predicate New(s: State, s': State, m: Message) {
    m.id !in s.issued && m.id in s'.content && s'.content[m.id] == ContentOf(m)
  }

  ghost predicate Traced(s: State, mv: Move, s': State, o: Spot)
    requires At(s', o).Some?
  {
    if mv == Fresh(o) then New(s, s', At(s', o).value)
    else At(s, Back(mv, o)).Some? && TracedTo(s, mv, s', o, At(s, Back(mv, o)).value, At(s', o).value)
  }

  ghost predicate TracedTo(s: State, mv: Move, s': State, o: Spot, m: Message, m': Message) {
    if mv == Turn(o) then From(m, m')
    else Same(m, m') && (mv == Log(o) || (AheadAt(s', o) <==> AheadAt(s, Back(mv, o))))
  }

  /** Every message in memory after the step is new or was at the spot it came from; no two came from one spot. */
  ghost predicate Traces(s: State, mv: Move, s': State) {
    && (mv.Carry? ==> At(s', mv.a).None?)
    && (mv.Pull? ==> !mv.b.OnTopic?)
    && forall o :: At(s', o).Some? ==> Traced(s, mv, s', o)
  }

  /** Turned or not, the message comes from the one that was there before. */
  lemma TracedFrom(s: State, mv: Move, s': State, o: Spot)
    requires At(s', o).Some? && Traced(s, mv, s', o) && mv != Fresh(o)
    ensures At(s, Back(mv, o)).Some? && From(At(s, Back(mv, o)).value, At(s', o).value)
  {
  }

  lemma BackApart(s: State, mv: Move, s': State, o: Spot, o': Spot)
    requires Traces(s, mv, s') && At(s', o).Some? && At(s', o').Some? && o != o'
    ensures Back(mv, o) != Back(mv, o')
  {
  }

  // ---------------------------------------------------------------------------
  // Steps
  // ---------------------------------------------------------------------------

  /** Same spots, same messages. */
  ghost predicate SameSpots(s: State, s': State) {
    forall o :: At(s', o).Some? ==> At(s, o) == At(s', o) && (AheadAt(s', o) <==> AheadAt(s, o))
  }

  lemma TracesSame(s: State, s': State)
    requires SameSpots(s, s')
    ensures Traces(s, Stay, s')
  {
  }

  lemma SameLoaded(s: State, q: Queue)
    requires LazyQueues(s)
    ensures SameSpots(s, WithQueue(s, q))
  {
    WithQueueIsEmpty(s, q);
  }

  lemma SameReady(s: State, t: nat)
    requires t in s.tasks && s.tasks[t].Checked?
    ensures SameSpots(s, WithTask(s, t, Ready(s.tasks[t].msg)))
  {
  }

  lemma SameTwice(s: State, s1: State, s2: State)
    requires SameSpots(s, s1) && SameSpots(s1, s2)
    ensures SameSpots(s, s2)
  {
    forall o | At(s2, o).Some? ensures At(s, o) == At(s2, o) {
      assert At(s1, o) == At(s2, o);
    }
  }

  lemma TracesLogged(s: State, t: nat, s': State)
    requires t in s.tasks && s'.tasks == s.tasks[t := Logged(s.tasks[t].msg)]
    requires s'.removals == s.removals && s'.topics == s.topics && s'.hands == s.hands && s'.inFlight == s.inFlight
    ensures Traces(s, Log(OnTask(t)), s')
  {
  }

  lemma TracesLand(s: State, t: nat, s': State)
    requires t in s.tasks && s' == LandRecord(s, t)
    ensures Traces(s, Log(OnTask(t)), s')
  {
    TracesLogged(s, t, s');
  }

  lemma TracesSwallow(s: State, t: nat, s': State)
    requires t in s.tasks && s' == SwallowRecord(s, t)
    ensures Traces(s, Log(OnTask(t)), s')
  {
    TracesLogged(s, t, s');
  }

  lemma TracesBury(s: State, t: nat, s': State)
    requires t in s.tasks && s' == LandTombstone(s, t)
    ensures Traces(s, Stay, s')
  {
    TracesSame(s, s');
  }

  lemma TracesTaskEnd(s: State, t: nat, s': State)
    requires t in s.tasks && s' == WithoutTask(s, t, Gone).(torn := s'.torn)
    ensures Traces(s, Stay, s')
  {
    TracesSame(s, s');
  }

  lemma TracesWrite(s: State, t: nat, s': State)
    requires WriteRecord(s, t) == Some(s')
    ensures Traces(s, Log(OnTask(t)), s')
  {
    if s.tasks[t].msg.queue in s.torn { TracesSwallow(s, t, s'); } else { TracesLand(s, t, s'); }
  }

  lemma TracesTombstone(s: State, t: nat, s': State)
    requires WriteTombstone(s, t) == Some(s')
    ensures Traces(s, Stay, s')
  {
    if s.tasks[t].msg.queue in s.torn { TracesTaskEnd(s, t, s'); } else { TracesBury(s, t, s'); }
  }

  /** How a step that writes a log moves messages. */
  function LogMove(step: Step): Move { if step.SWriteRecord? then Log(OnTask(step.t)) else Stay }

  lemma TracesLog(s: State, step: Step, s': State)
    requires IsLogStep(step) && !step.SRestart? && LogNext(s, step) == Some(s')
    ensures Traces(s, LogMove(step), s')
  {
    if step.SWriteRecord? {
      TracesWrite(s, step.t, s');
    } else if step.SWriteTombstone? {
      TracesTombstone(s, step.t, s');
    }
  }

  lemma TracesPublish(s: State, t: nat, m: Message, s': State)
    requires Publish(s, t, m) == Some(s')
    ensures Traces(s, Fresh(OnTask(t)), s')
  {
  }

  lemma TracesInitQueue(s: State, t: nat, s': State)
    requires LazyQueues(s) && InitQueue(s, t) == Some(s')
    ensures Traces(s, Stay, s')
  {
    var loaded := WithQueue(s, s.tasks[t].msg.queue);
    SameLoaded(s, s.tasks[t].msg.queue);
    SameReady(loaded, t);
    SameTwice(s, loaded, s');
    TracesSame(s, s');
  }

  lemma TracesEnter(s: State, t: nat, s': State) returns (mv: Move)
    requires EnterTopic(s, t) == Some(s')
    ensures Traces(s, mv, s') && mv.Carry?
  {
    var q := s.tasks[t].msg.queue;
    mv := Carry(OnTask(t), OnTopic(q, |TopicOf(s, q)|));
  }

  lemma TracesManager(s: State, step: Step, s': State) returns (mv: Move)
    requires LazyQueues(s) && IsManagerStep(step) && ManagerNext(s, step) == Some(s')
    ensures Traces(s, mv, s') && MoveOf(step, mv)
  {
    mv := Stay;
    if step.SPublish? {
      TracesPublish(s, step.t, step.m, s');
      mv := Fresh(OnTask(step.t));
    } else if step.SEnterTopic? {
      mv := TracesEnter(s, step.t, s');
    } else if step.SInitQueue? {
      TracesInitQueue(s, step.t, s');
    } else {
      TracesTaskEnd(s, step.t, s');
    }
  }

  lemma TracesTaken(s: State, id: MessageID, r: nat, after: After, s': State) returns (mv: Move)
    requires s' == Taken(s, id, r, after)
    ensures Traces(s, mv, s') && (mv.Carry? || mv.Stay?)
  {
    mv := if id in s.inFlight then Carry(OnFlight(id), OnRemoval(r)) else Stay;
  }

  function RetryMove(s: State, t: nat): Move { if s.closing then Stay else Turn(OnTask(t)) }

  lemma TracesRetry(s: State, t: nat, now: Instant, s': State)
    requires Retry(s, t, now) == Some(s')
    ensures Traces(s, RetryMove(s, t), s')
  {
    if s.closing {
      TracesTaskEnd(s, t, s');
    } else {
      assert From(s.tasks[t].msg, s'.tasks[t].msg);
      assert forall o :: At(s', o).Some? && o != OnTask(t) ==> At(s, o) == At(s', o) && (AheadAt(s', o) <==> AheadAt(s, o));
    }
  }

  lemma TracesDecrement(s: State, r: nat, t: nat, s': State) returns (mv: Move)
    requires Decrement(s, r, t) == Some(s')
    ensures Traces(s, mv, s') && mv.Carry?
  {
    mv := Carry(OnRemoval(r), OnTask(t));
  }

  lemma TracesForget(s: State, r: nat, s': State)
    requires Forget(s, r) == Some(s')
    ensures Traces(s, Stay, s')
  {
  }

  lemma GapCloses(ms: seq<Message>, i: nat)
    requires i < |ms|
    ensures forall j :: 0 <= j < |ms| - 1 ==> (ms[..i] + ms[i + 1..])[j] == if j < i then ms[j] else ms[j + 1]
  {
  }

  lemma TracesExpire(s: State, q: Queue, i: nat, cutoff: Instant, t: nat, s': State) returns (mv: Move)
    requires ExpirePending(s, q, i, cutoff, t) == Some(s')
    ensures Traces(s, mv, s') && mv.Pull?
  {
    mv := Pull(q, i, OnTask(t));
    GapCloses(TopicOf(s, q), i);
    forall o | At(s', o).Some? ensures Traced(s, mv, s', o) {
      if o.OnTopic? && o.q == q { assert At(s', o) == At(s, Back(mv, o)); }
    }
  }

  lemma TracesOutcome(s: State, step: Step, s': State) returns (mv: Move)
    requires IsOutcomeStep(step) && OutcomeNext(s, step) == Some(s')
    ensures Traces(s, mv, s') && MoveOf(step, mv)
  {
    mv := Stay;
    if step.STake? {
      mv := TracesTaken(s, step.id, step.r, AfterOf(step.cause), s');
    } else if step.SRetry? {
      TracesRetry(s, step.t, step.now, s');
      mv := RetryMove(s, step.t);
    } else if step.SDecrement? {
      mv := TracesDecrement(s, step.r, step.t, s');
    } else if step.SExpirePending? {
      mv := TracesExpire(s, step.q, step.i, step.cutoff, step.t, s');
    } else {
      TracesForget(s, step.r, s');
    }
  }

  lemma TracesQuiet(s: State, step: Step, s': State)
    requires IsQuietStep(step) && QuietNext(s, step) == Some(s')
    ensures Traces(s, Stay, s')
  {
    SameHand(s, s', step.q);
    TracesSame(s, s');
  }

  lemma SameHand(s: State, s': State, q: Queue)
    requires s' == s.(hands := s'.hands, mailboxes := s'.mailboxes) && q in s'.hands && s'.hands == s.hands[q := s'.hands[q]]
    requires InHand(s'.hands[q]) ==> q in s.hands && InHand(s.hands[q]) && s.hands[q].msg == s'.hands[q].msg
    ensures SameSpots(s, s')
  {
  }

  lemma TracesInit(s: State, q: Queue, s': State)
    requires LazyQueues(s) && s' == WithQueue(s, q)
    ensures Traces(s, Stay, s')
  {
    SameLoaded(s, q);
    TracesSame(s, s');
  }

  lemma TracesDequeue(s: State, q: Queue, s': State) returns (mv: Move)
    requires Dequeue(s, q) == Some(s')
    ensures Traces(s, mv, s') && mv.Pull?
  {
    mv := Pull(q, 0, OnHand(q));
  }

  lemma TracesCharge(s: State, q: Queue, c: ConsumerID, s': State)
    requires Charge(s, q, c) == Some(s')
    ensures Traces(s, Stay, s')
  {
  }

  lemma TracesRegister(s: State, q: Queue, now: Instant, s': State) returns (mv: Move)
    requires Register(s, q, now) == Some(s')
    ensures Traces(s, mv, s') && mv.Carry?
  {
    mv := Carry(OnHand(q), OnFlight(s.hands[q].msg.id));
  }

  lemma TracesAbandon(s: State, q: Queue, s': State)
    requires Abandon(s, q) == Some(s')
    ensures Traces(s, Stay, s')
  {
  }

  /** Nothing but the dispatcher's program counter differs, and no message is in its hand. */
  lemma TracesFrom(s: State, s0: State, mv: Move, s': State)
    requires Traces(s0, mv, s') && (mv.Carry? || mv.Stay?) && s0.tasks == s.tasks && forall o :: At(s0, o) == At(s, o)
    ensures Traces(s, mv, s')
  {
    forall o | At(s', o).Some? ensures Traced(s, mv, s', o) {
      assert Traced(s0, mv, s', o);
    }
  }

  lemma TracesCancel(s: State, q: Queue, r: nat, s': State) returns (mv: Move)
    requires CancelSend(s, q, r) == Some(s')
    ensures Traces(s, mv, s') && (mv.Carry? || mv.Stay?)
  {
    var stopped := WithHand(s, q, Stopped);
    mv := TracesTaken(stopped, s.hands[q].msg.id, r, Drop, s');
    TracesFrom(s, stopped, mv, s');
  }

  lemma TracesHand(s: State, step: Step, s': State) returns (mv: Move)
    requires LazyQueues(s) && IsHandStep(step) && HandNext(s, step) == Some(s')
    ensures Traces(s, mv, s') && MoveOf(step, mv)
  {
    mv := Stay;
    if step.SInitForDequeue? {
      TracesInit(s, step.q, s');
    } else if step.SDequeue? {
      mv := TracesDequeue(s, step.q, s');
    } else if step.SCharge? {
      TracesCharge(s, step.q, step.c, s');
    } else if step.SRegister? {
      mv := TracesRegister(s, step.q, step.now, s');
    } else if step.SAbandon? {
      TracesAbandon(s, step.q, s');
    } else {
      mv := TracesCancel(s, step.q, step.r, s');
    }
  }

  lemma TracesOutside(s: State, step: Step, s': State)
    requires OutsideNext(s, step) == Some(s')
    ensures Traces(s, Stay, s')
  {
    TracesSame(s, s');
  }

  /**
   Within a session every message in memory is new, or was at one other spot before the step: with the same content, on
   its queue or one level up, and no other message came from there.
   */
  lemma StepTraces(s: State, step: Step, s': State) returns (mv: Move)
    requires LazyQueues(s) && !step.SRestart? && Next(s, step) == Some(s')
    ensures Traces(s, mv, s') && MoveOf(step, mv)
  {
    mv := Stay;
    if IsLogStep(step) {
      TracesLog(s, step, s');
      mv := LogMove(step);
    } else if IsManagerStep(step) {
      mv := TracesManager(s, step, s');
    } else if IsOutcomeStep(step) {
      mv := TracesOutcome(s, step, s');
    } else if IsQuietStep(step) {
      TracesQuiet(s, step, s');
    } else if IsHandStep(step) {
      mv := TracesHand(s, step, s');
    } else {
      TracesOutside(s, step, s');
    }
  }
}
