/**
 Two runs of the same steps side by side, one of which compacted a log first: memory stays the same in both, and the log
 of the other gains what the run writes to it, until a short write tears it again.
 */
module Beside {
  import opened Core
  import opened Wire
  import opened Log
  import opened Broker
  import opened HistorySteps
  import opened Theorems

  /** A run within one session. */
  ghost predicate Session(s: State, steps: seq<Step>, s': State) {
    Run(s, steps) == Some(s') && forall i :: 0 <= i < |steps| ==> !steps[i].SRestart?
  }

  predicate AppendsOnly(step: Step, q: Queue) { !step.SRestart? && !(step.SCompactLog? && step.q == q) }

  /** A run within one session that does not compact `q`. */
  ghost predicate Appends(s: State, steps: seq<Step>, s': State, q: Queue) {
    Run(s, steps) == Some(s') && forall i :: 0 <= i < |steps| ==> AppendsOnly(steps[i], q)
  }

  // ---------------------------------------------------------------------------
  // What a run writes to a queue
  // ---------------------------------------------------------------------------

  /** Records written to a queue, and whether a short write has ended them. */
  datatype Tally = Tally(recs: seq<Record>, cut: bool)

  ghost predicate On(s: State, t: nat, q: Queue) { t in s.tasks && s.tasks[t].msg.queue == q }

  ghost function TallyStep(tl: Tally, s: State, step: Step, q: Queue): Tally {
    if tl.cut then tl
    else if step.SWriteRecord? && On(s, step.t, q) then tl.(recs := tl.recs + [Put(s.tasks[step.t].msg)])
    else if step.SWriteTombstone? && On(s, step.t, q) then tl.(recs := tl.recs + [Tombstone(s.tasks[step.t].msg.id)])
    else if step.SFailShort? && On(s, step.t, q) then tl.(cut := true)
    else tl
  }

  /** What a run writes to `q` before a short write tears its file: all of it lands if the file is clean to begin with. */
  ghost function Attempted(s: State, steps: seq<Step>, q: Queue): Tally {
    if steps == [] then Tally([], false)
    else
      var init := steps[..|steps| - 1];
      var before := Run(s, init);
      if before.None? then Attempted(s, init, q)
      else TallyStep(Attempted(s, init, q), before.value, steps[|steps| - 1], q)
  }

  lemma AttemptedOne(s: State, steps: seq<Step>, s1: State, step: Step, q: Queue)
    requires Run(s, steps) == Some(s1)
    ensures Attempted(s, steps + [step], q) == TallyStep(Attempted(s, steps, q), s1, step, q)
  {
    var longer := steps + [step];
    assert longer[..|longer| - 1] == steps && longer[|longer| - 1] == step;
  }

  // ---------------------------------------------------------------------------
  // Same memory
  // ---------------------------------------------------------------------------

  /** The memory of `s` with the logs of `c` and the history of what was written to them. */
  function Onto(s: State, c: State): State {
    s.(logs := c.logs, torn := c.torn, landed := c.landed, buried := c.buried, swallowed := c.swallowed)
  }

  /** Queues that are still to be loaded have the same logs. */
  ghost predicate LoadsAlike(s: State, c: State) { forall p :: p !in s.topics ==> LogOf(c, p) == LogOf(s, p) }

  /** The step does the same to the memory of both and nothing to the logs of either. */
  ghost predicate Follows(s: State, s': State, c: State, next: Option<State>) {
    next == Some(Onto(s', c)) && s.topics.Keys <= s'.topics.Keys
  }

  lemma OntoPublish(s: State, t: nat, m: Message, s': State, c: State)
    requires Publish(s, t, m) == Some(s')
    ensures Follows(s, s', c, Publish(Onto(s, c), t, m))
  {
  }

  lemma LoadedAlike(s: State, c: State, q: Queue)
    requires LoadsAlike(s, c)
    ensures Loaded(Onto(s, c), q) == Loaded(s, q) && s.topics.Keys <= Loaded(s, q).Keys
  {
    if q !in s.topics { assert LogOf(c, q) == LogOf(s, q); }
  }

  lemma InitAs(s: State, t: nat, m: Message, topics: map<Queue, seq<Message>>)
    requires t in s.tasks && s.tasks[t] == Checked(m) && Loaded(s, m.queue) == topics
    ensures InitQueue(s, t) == Some(s.(topics := topics, tasks := s.tasks[t := Ready(m)], owner := Moved(s, m.id, AtTask(t))))
  {
  }

  lemma OntoInitQueue(s: State, t: nat, s': State, c: State)
    requires InitQueue(s, t) == Some(s') && LoadsAlike(s, c)
    ensures Follows(s, s', c, InitQueue(Onto(s, c), t))
  {
    var m := s.tasks[t].msg;
    var topics := Loaded(s, m.queue);
    LoadedAlike(s, c, m.queue);
    InitAs(s, t, m, topics);
    InitAs(Onto(s, c), t, m, topics);
  }

  lemma OntoEnterTopic(s: State, t: nat, s': State, c: State)
    requires EnterTopic(s, t) == Some(s')
    ensures Follows(s, s', c, EnterTopic(Onto(s, c), t))
  {
  }

  lemma OntoManager(s: State, step: Step, s': State, c: State)
    requires IsManagerStep(step) && !step.SFailShort? && ManagerNext(s, step) == Some(s') && LoadsAlike(s, c)
    ensures Follows(s, s', c, ManagerNext(Onto(s, c), step))
  {
    if step.SPublish? {
      OntoPublish(s, step.t, step.m, s', c);
    } else if step.SInitQueue? {
      OntoInitQueue(s, step.t, s', c);
    } else if step.SEnterTopic? {
      OntoEnterTopic(s, step.t, s', c);
    }
  }

  lemma OntoTake(s: State, id: MessageID, cause: Cause, r: nat, s': State, c: State)
    requires Take(s, id, cause, r) == Some(s')
    ensures Follows(s, s', c, Take(Onto(s, c), id, cause, r))
  {
  }

  lemma OntoDecrement(s: State, r: nat, t: nat, s': State, c: State)
    requires Decrement(s, r, t) == Some(s')
    ensures Follows(s, s', c, Decrement(Onto(s, c), r, t))
  {
  }

  lemma OntoForget(s: State, r: nat, s': State, c: State)
    requires Forget(s, r) == Some(s')
    ensures Follows(s, s', c, Forget(Onto(s, c), r))
  {
  }

  lemma OntoRetry(s: State, t: nat, now: Instant, s': State, c: State)
    requires Retry(s, t, now) == Some(s')
    ensures Follows(s, s', c, Retry(Onto(s, c), t, now))
  {
  }

  lemma OntoExpire(s: State, q: Queue, i: nat, cutoff: Instant, t: nat, s': State, c: State)
    requires ExpirePending(s, q, i, cutoff, t) == Some(s')
    ensures Follows(s, s', c, ExpirePending(Onto(s, c), q, i, cutoff, t))
  {
  }

  lemma OntoOutcome(s: State, step: Step, s': State, c: State)
    requires IsOutcomeStep(step) && OutcomeNext(s, step) == Some(s')
    ensures Follows(s, s', c, OutcomeNext(Onto(s, c), step))
  {
    if step.STake? {
      OntoTake(s, step.id, step.cause, step.r, s', c);
    } else if step.SDecrement? {
      OntoDecrement(s, step.r, step.t, s', c);
    } else if step.SForget? {
      OntoForget(s, step.r, s', c);
    } else if step.SRetry? {
      OntoRetry(s, step.t, step.now, s', c);
    } else {
      OntoExpire(s, step.q, step.i, step.cutoff, step.t, s', c);
    }
  }

  lemma OntoSnapshot(s: State, q: Queue, s': State, c: State)
    requires Snapshot(s, q) == Some(s')
    ensures Follows(s, s', c, Snapshot(Onto(s, c), q))
  {
    assert EligibleConsumers(Onto(s, c), q) == EligibleConsumers(s, q);
  }

  lemma OntoSend(s: State, q: Queue, s': State, c: State)
    requires Send(s, q) == Some(s')
    ensures Follows(s, s', c, Send(Onto(s, c), q))
  {
  }

  lemma OntoQuiet(s: State, step: Step, s': State, c: State)
    requires IsQuietStep(step) && QuietNext(s, step) == Some(s')
    ensures Follows(s, s', c, QuietNext(Onto(s, c), step))
  {
    if step.SSnapshot? {
      OntoSnapshot(s, step.q, s', c);
    } else if step.SSend? {
      OntoSend(s, step.q, s', c);
    }
  }

  lemma OntoInitForDequeue(s: State, q: Queue, s': State, c: State)
    requires InitForDequeue(s, q) == Some(s') && LoadsAlike(s, c)
    ensures Follows(s, s', c, InitForDequeue(Onto(s, c), q))
  {
    assert q !in s.topics ==> LogOf(Onto(s, c), q) == LogOf(s, q);
    assert Loaded(Onto(s, c), q) == Loaded(s, q);
  }

  lemma OntoDequeue(s: State, q: Queue, s': State, c: State)
    requires Dequeue(s, q) == Some(s')
    ensures Follows(s, s', c, Dequeue(Onto(s, c), q))
  {
  }

  lemma OntoCharge(s: State, q: Queue, x: ConsumerID, s': State, c: State)
    requires Charge(s, q, x) == Some(s')
    ensures Follows(s, s', c, Charge(Onto(s, c), q, x))
  {
  }

  lemma OntoRegister(s: State, q: Queue, now: Instant, s': State, c: State)
    requires Register(s, q, now) == Some(s')
    ensures Follows(s, s', c, Register(Onto(s, c), q, now))
  {
  }

  lemma OntoAbandon(s: State, q: Queue, s': State, c: State)
    requires Abandon(s, q) == Some(s')
    ensures Follows(s, s', c, Abandon(Onto(s, c), q))
  {
  }

  lemma OntoTaken(s: State, id: MessageID, r: nat, after: After, c: State)
    ensures Taken(Onto(s, c), id, r, after) == Onto(Taken(s, id, r, after), c)
    ensures Taken(s, id, r, after).topics == s.topics
  {
  }

  lemma OntoCancel(s: State, q: Queue, r: nat, s': State, c: State)
    requires CancelSend(s, q, r) == Some(s')
    ensures Follows(s, s', c, CancelSend(Onto(s, c), q, r))
  {
    var stopped := WithHand(s, q, Stopped);
    assert WithHand(Onto(s, c), q, Stopped) == Onto(stopped, c);
    OntoTaken(stopped, s.hands[q].msg.id, r, Drop, c);
  }

  lemma OntoHand(s: State, step: Step, s': State, c: State)
    requires IsHandStep(step) && HandNext(s, step) == Some(s') && LoadsAlike(s, c)
    ensures Follows(s, s', c, HandNext(Onto(s, c), step))
  {
    if step.SInitForDequeue? {
      OntoInitForDequeue(s, step.q, s', c);
    } else if step.SDequeue? {
      OntoDequeue(s, step.q, s', c);
    } else if step.SCharge? {
      OntoCharge(s, step.q, step.c, s', c);
    } else if step.SRegister? {
      OntoRegister(s, step.q, step.now, s', c);
    } else if step.SAbandon? {
      OntoAbandon(s, step.q, s', c);
    } else {
      OntoCancel(s, step.q, step.r, s', c);
    }
  }

  lemma OntoOutside(s: State, step: Step, s': State, c: State)
    requires OutsideNext(s, step) == Some(s')
    ensures Follows(s, s', c, OutsideNext(Onto(s, c), step))
  {
  }

  /** Every step that writes no log. */
  lemma OntoStep(s: State, step: Step, s': State, c: State)
    requires !IsLogStep(step) && !step.SFailShort? && Next(s, step) == Some(s') && LoadsAlike(s, c)
    ensures Follows(s, s', c, Next(Onto(s, c), step))
  {
    if IsManagerStep(step) {
      OntoManager(s, step, s', c);
    } else if IsOutcomeStep(step) {
      OntoOutcome(s, step, s', c);
    } else if IsQuietStep(step) {
      OntoQuiet(s, step, s', c);
    } else if IsHandStep(step) {
      OntoHand(s, step, s', c);
    } else {
      OntoOutside(s, step, s', c);
    }
  }

  // ---------------------------------------------------------------------------
  // Side by side
  // ---------------------------------------------------------------------------

  /**
   `c` runs beside `s`: same memory and same logs but for the log of `q`. There `c` started from `b` and `s` from `a`,
   torn if `was`; `tl` is what the run has written to `q`, all of which landed in `c`.
   */
  ghost predicate IsBeside(s: State, c: State, q: Queue, was: bool, a: seq<Record>, b: seq<Record>, tl: Tally) {
    && q in s.topics && c == Onto(s, c)
    && (forall p :: p != q ==> LogOf(c, p) == LogOf(s, p) && (p in c.torn <==> p in s.torn))
    && (q in c.torn <==> tl.cut) && (q in s.torn <==> was || tl.cut)
    && LogOf(c, q) == b + tl.recs && LogOf(s, q) == a + if was then [] else tl.recs
  }

  /** `x` was appended to the log of `p`, unless that is torn. */
  ghost predicate Gains(s: State, s': State, p: Queue, x: Record) {
    && s'.torn == s.torn && s'.topics == s.topics
    && LogOf(s', p) == LogOf(s, p) + (if p in s.torn then [] else [x])
    && forall o :: o != p ==> LogOf(s', o) == LogOf(s, o)
  }

  lemma WriteGains(s: State, t: nat, s': State)
    requires WriteRecord(s, t) == Some(s')
    ensures Wrote(s, t, s') && Gains(s, s', s.tasks[t].msg.queue, Put(s.tasks[t].msg))
  {
    if s.tasks[t].msg.queue in s.torn {
      assert s' == SwallowRecord(s, t);
    } else {
      LandGains(s, t);
    }
  }

  lemma LandGains(s: State, t: nat)
    requires IsReady(s, t) && s.tasks[t].msg.queue !in s.torn
    ensures var s' := LandRecord(s, t); Wrote(s, t, s') && Gains(s, s', s.tasks[t].msg.queue, Put(s.tasks[t].msg))
  {
  }

  /** The task of a tombstone ends. */
  ghost predicate Ended(s: State, t: nat, s': State) {
    t in s.tasks && s' == s.(tasks := s.tasks - {t}, owner := Moved(s, s.tasks[t].msg.id, Gone), logs := s'.logs,
                             torn := s'.torn, buried := s'.buried)
  }

  lemma TombstoneGains(s: State, t: nat, s': State)
    requires WriteTombstone(s, t) == Some(s')
    ensures Ended(s, t, s') && Gains(s, s', s.tasks[t].msg.queue, Tombstone(s.tasks[t].msg.id))
  {
    if s.tasks[t].msg.queue in s.torn { EndGains(s, t); } else { BuryGains(s, t); }
  }

  lemma EndGains(s: State, t: nat)
    requires t in s.tasks && s.tasks[t].msg.queue in s.torn
    ensures var s' := WithoutTask(s, t, Gone); Ended(s, t, s') && Gains(s, s', s.tasks[t].msg.queue, Tombstone(s.tasks[t].msg.id))
  {
  }

  lemma BuryGains(s: State, t: nat)
    requires t in s.tasks && s.tasks[t].msg.queue !in s.torn
    ensures var s' := LandTombstone(s, t); Ended(s, t, s') && Gains(s, s', s.tasks[t].msg.queue, Tombstone(s.tasks[t].msg.id))
  {
  }

  /** Both write the record `x` to `p`; if that is `q`, the tally grows unless it was cut. */
  lemma BesideGains(s: State, s': State, c: State, c': State, q: Queue, was: bool, a: seq<Record>, b: seq<Record>,
                    tl: Tally, tl': Tally, p: Queue, x: Record)
    requires IsBeside(s, c, q, was, a, b, tl) && Gains(s, s', p, x) && Gains(c, c', p, x) && c' == Onto(s', c')
    requires tl' == if p == q && !tl.cut then tl.(recs := tl.recs + [x]) else tl
    ensures IsBeside(s', c', q, was, a, b, tl')
  {
    forall o | o != q ensures LogOf(c', o) == LogOf(s', o) && (o in c'.torn <==> o in s'.torn) {
      assert LogOf(c, o) == LogOf(s, o) && (o in c.torn <==> o in s.torn);
    }
  }

  lemma WroteAlike(s: State, t: nat, s': State, c: State, c': State)
    requires c == Onto(s, c) && Wrote(s, t, s') && Wrote(c, t, c') && s'.torn == s.torn && c'.torn == c.torn
    ensures c' == Onto(s', c')
  {
  }

  lemma EndedAlike(s: State, t: nat, s': State, c: State, c': State)
    requires c == Onto(s, c) && Ended(s, t, s') && Ended(c, t, c')
    ensures c' == Onto(s', c')
  {
  }

  lemma BesideWrite(s: State, t: nat, s': State, c: State, q: Queue, was: bool, a: seq<Record>, b: seq<Record>, tl: Tally)
    returns (c': State)
    requires IsBeside(s, c, q, was, a, b, tl) && WriteRecord(s, t) == Some(s')
    ensures WriteRecord(c, t) == Some(c') && IsBeside(s', c', q, was, a, b, TallyStep(tl, s, SWriteRecord(t), q))
  {
    assert IsReady(c, t) && !c.closed;
    c' := WriteRecord(c, t).value;
    WriteGains(s, t, s');
    WriteGains(c, t, c');
    WroteAlike(s, t, s', c, c');
    var m := s.tasks[t].msg;
    BesideGains(s, s', c, c', q, was, a, b, tl, TallyStep(tl, s, SWriteRecord(t), q), m.queue, Put(m));
  }

  lemma BesideTombstone(s: State, t: nat, s': State, c: State, q: Queue, was: bool, a: seq<Record>, b: seq<Record>, tl: Tally)
    returns (c': State)
    requires IsBeside(s, c, q, was, a, b, tl) && WriteTombstone(s, t) == Some(s')
    ensures WriteTombstone(c, t) == Some(c') && IsBeside(s', c', q, was, a, b, TallyStep(tl, s, SWriteTombstone(t), q))
  {
    assert IsBurying(c, t) && !c.closed;
    c' := WriteTombstone(c, t).value;
    TombstoneGains(s, t, s');
    TombstoneGains(c, t, c');
    EndedAlike(s, t, s', c, c');
    var m := s.tasks[t].msg;
    BesideGains(s, s', c, c', q, was, a, b, tl, TallyStep(tl, s, SWriteTombstone(t), q), m.queue, Tombstone(m.id));
  }

  lemma ShortEnds(s: State, t: nat, s': State)
    requires FailShort(s, t) == Some(s')
    ensures Ended(s, t, s') && s'.logs == s.logs && s'.torn == s.torn + {s.tasks[t].msg.queue} && s'.topics == s.topics
  {
  }

  lemma BesideTears(s: State, s': State, c: State, c': State, q: Queue, was: bool, a: seq<Record>, b: seq<Record>, tl: Tally, p: Queue)
    requires IsBeside(s, c, q, was, a, b, tl) && c' == Onto(s', c') && s'.topics == s.topics
    requires s'.logs == s.logs && c'.logs == c.logs && s'.torn == s.torn + {p} && c'.torn == c.torn + {p}
    ensures IsBeside(s', c', q, was, a, b, if p == q && !tl.cut then tl.(cut := true) else tl)
  {
    forall o | o != q ensures LogOf(c', o) == LogOf(s', o) && (o in c'.torn <==> o in s'.torn) {
      assert LogOf(c, o) == LogOf(s, o) && (o in c.torn <==> o in s.torn);
    }
  }

  lemma BesideShort(s: State, t: nat, cut: nat, s': State, c: State, q: Queue, was: bool, a: seq<Record>, b: seq<Record>, tl: Tally)
    returns (c': State)
    requires IsBeside(s, c, q, was, a, b, tl) && FailShort(s, t) == Some(s')
    ensures FailShort(c, t) == Some(c') && IsBeside(s', c', q, was, a, b, TallyStep(tl, s, SFailShort(t, cut), q))
  {
    c' := FailShort(c, t).value;
    ShortEnds(s, t, s');
    ShortEnds(c, t, c');
    EndedAlike(s, t, s', c, c');
    BesideTears(s, s', c, c', q, was, a, b, tl, s.tasks[t].msg.queue);
  }

  lemma BesideCompact(s: State, p: Queue, s': State, c: State, q: Queue, was: bool, a: seq<Record>, b: seq<Record>, tl: Tally)
    returns (c': State)
    requires IsBeside(s, c, q, was, a, b, tl) && p != q && CompactLog(s, p) == Some(s')
    ensures CompactLog(c, p) == Some(c') && IsBeside(s', c', q, was, a, b, tl)
  {
    c' := CompactLog(c, p).value;
    assert LogOf(c, p) == LogOf(s, p);
    forall o | o != q ensures LogOf(c', o) == LogOf(s', o) && (o in c'.torn <==> o in s'.torn) {
      assert LogOf(c, o) == LogOf(s, o) && (o in c.torn <==> o in s.torn);
    }
  }

  lemma BesideLogStep(s: State, step: Step, s': State, c: State, q: Queue, was: bool, a: seq<Record>, b: seq<Record>, tl: Tally)
    returns (c': State)
    requires IsBeside(s, c, q, was, a, b, tl) && IsLogStep(step) && AppendsOnly(step, q) && LogNext(s, step) == Some(s')
    ensures LogNext(c, step) == Some(c') && IsBeside(s', c', q, was, a, b, TallyStep(tl, s, step, q))
  {
    if step.SWriteRecord? {
      c' := BesideWrite(s, step.t, s', c, q, was, a, b, tl);
    } else if step.SWriteTombstone? {
      c' := BesideTombstone(s, step.t, s', c, q, was, a, b, tl);
    } else {
      c' := BesideCompact(s, step.q, s', c, q, was, a, b, tl);
    }
  }

  lemma BesideFollows(s: State, s': State, c: State, q: Queue, was: bool, a: seq<Record>, b: seq<Record>, tl: Tally)
    requires IsBeside(s, c, q, was, a, b, tl) && s'.logs == s.logs && s'.torn == s.torn && s.topics.Keys <= s'.topics.Keys
    ensures IsBeside(s', Onto(s', c), q, was, a, b, tl)
  {
    forall o | o != q ensures LogOf(Onto(s', c), o) == LogOf(s', o) && (o in c.torn <==> o in s'.torn) {
      assert LogOf(c, o) == LogOf(s, o) && (o in c.torn <==> o in s.torn);
    }
  }

  lemma BesideOther(s: State, step: Step, s': State, c: State, q: Queue, was: bool, a: seq<Record>, b: seq<Record>, tl: Tally)
    returns (c': State)
    requires IsBeside(s, c, q, was, a, b, tl) && !IsLogStep(step) && !step.SFailShort? && Next(s, step) == Some(s')
    ensures Next(c, step) == Some(c') && IsBeside(s', c', q, was, a, b, tl)
  {
    c' := Onto(s', c);
    OntoStep(s, step, s', c);
    StepFrame(s, step, s');
    BesideFollows(s, s', c, q, was, a, b, tl);
  }

  lemma BesideStep(s: State, step: Step, s': State, c: State, q: Queue, was: bool, a: seq<Record>, b: seq<Record>, tl: Tally)
    returns (c': State)
    requires IsBeside(s, c, q, was, a, b, tl) && AppendsOnly(step, q) && Next(s, step) == Some(s')
    ensures Next(c, step) == Some(c') && IsBeside(s', c', q, was, a, b, TallyStep(tl, s, step, q))
  {
    if IsLogStep(step) {
      c' := BesideLogStep(s, step, s', c, q, was, a, b, tl);
    } else if step.SFailShort? {
      c' := BesideShort(s, step.t, step.cut, s', c, q, was, a, b, tl);
    } else {
      c' := BesideOther(s, step, s', c, q, was, a, b, tl);
    }
  }

  lemma {:induction false} BesideRun(s: State, steps: seq<Step>, s': State, c: State, q: Queue, was: bool, a: seq<Record>, b: seq<Record>)
    returns (c': State)
    requires Appends(s, steps, s', q) && IsBeside(s, c, q, was, a, b, Tally([], false))
    ensures Run(c, steps) == Some(c') && IsBeside(s', c', q, was, a, b, Attempted(s, steps, q))
  {
    if steps == [] {
      c' := c;
    } else {
      var init, last := steps[..|steps| - 1], steps[|steps| - 1];
      var s1 := Run(s, init).value;
      var c1 := BesideRun(s, init, s1, c, q, was, a, b);
      c' := BesideStep(s1, last, s', c1, q, was, a, b, Attempted(s, init, q));
    }
  }

  // ---------------------------------------------------------------------------
  // With and without a compaction
  // ---------------------------------------------------------------------------

  predicate Compactable(s: State, q: Queue) { q in s.topics && !s.closed }

  /** What the run leaves if `q` is compacted first. */
  ghost predicate CompactedFirst(s: State, steps: seq<Step>, s': State, q: Queue, c: State) {
    var recs := Attempted(s, steps, q).recs;
    && CompactLog(s, q).Some? && Run(CompactLog(s, q).value, steps) == Some(c)
    && c == Onto(s', c) && (forall p :: p != q ==> LogOf(c, p) == LogOf(s', p))
    && LogOf(c, q) == Compacted(LogOf(s, q)) + recs
    && LogOf(s', q) == LogOf(s, q) + if q in s.torn then [] else recs
  }

  lemma StartBeside(s: State, q: Queue)
    requires Compactable(s, q)
    ensures IsBeside(s, CompactLog(s, q).value, q, q in s.torn, LogOf(s, q), Compacted(LogOf(s, q)), Tally([], false))
  {
  }

  /**
   Compaction changes nothing else: after it the same steps can be taken, memory and all other logs come out the same,
   and the log of the queue is the compacted one followed by what the run writes to it.
   */
  lemma CompactedRun(s: State, steps: seq<Step>, s': State, q: Queue) returns (c: State)
    requires Compactable(s, q) && Appends(s, steps, s', q)
    ensures CompactedFirst(s, steps, s', q, c)
  {
    StartBeside(s, q);
    c := BesideRun(s, steps, s', CompactLog(s, q).value, q, q in s.torn, LogOf(s, q), Compacted(LogOf(s, q)));
  }

  /** The same steps after a compaction of `q` leave a log that replays the same. */
  ghost predicate Hidden(s: State, steps: seq<Step>, s': State, q: Queue) {
    && CompactLog(s, q).Some?
    && var c := Run(CompactLog(s, q).value, steps);
       c.Some? && Live(LogOf(c.value, q)) == Live(LogOf(s', q))
  }

  /** On a clean log: exactly if the run writes no record that resurrects a tombstoned ID. */
  lemma HiddenOnClean(s: State, steps: seq<Step>, s': State, q: Queue)
    requires Compactable(s, q) && q !in s.torn && Appends(s, steps, s', q)
    ensures LogOf(s', q) == LogOf(s, q) + Attempted(s, steps, q).recs
    ensures Hidden(s, steps, s', q) <==> !Resurrects(LogOf(s, q), Attempted(s, steps, q).recs)
  {
    var c := CompactedRun(s, steps, s', q);
    CompactionInvisible(LogOf(s, q), Attempted(s, steps, q).recs);
  }

  /**
   On a torn log, where without the compaction nothing the run writes is ever replayed: exactly if what it writes leaves
   no message and tombstones none that the log replays.
   */
  lemma HiddenOnTorn(s: State, steps: seq<Step>, s': State, q: Queue)
    requires Compactable(s, q) && q in s.torn && Appends(s, steps, s', q)
    ensures LogOf(s', q) == LogOf(s, q)
    ensures Hidden(s, steps, s', q) <==> Unseen(LogOf(s, q), Attempted(s, steps, q).recs)
  {
    var c := CompactedRun(s, steps, s', q);
    UnseenExactly(LogOf(s, q), Attempted(s, steps, q).recs);
  }
}
