/** When compacting a log in the middle of a session can never be noticed by a later replay. */
module Sessions {
  import opened Core
  import opened Wire
  import opened Log
  import opened Broker
  import opened Ownership
  import opened Durability
  import opened Safety
  import opened Theorems
  import opened Descent
  import opened Contents
  import opened Beside

  // ---------------------------------------------------------------------------
  // Queues above and below each other
  // ---------------------------------------------------------------------------

  lemma {:induction false} DlqNameBelow(q: Queue, d: nat)
    ensures DlqName(q + DLQ_SUFFIX, d) == DlqName(q, d + 1)
  {
    if d > 0 { DlqNameBelow(q, d - 1); }
  }

  /** Neither queue is a dead-letter queue, at any level, of the other. */
  ghost predicate Unrelated(q: Queue, p: Queue) { forall d: nat :: DlqName(q, d) != p && DlqName(p, d) != q }

  lemma SuffixCancels(a: Queue, b: Queue)
    ensures a + DLQ_SUFFIX == b + DLQ_SUFFIX <==> a == b
  {
    assert a == (a + DLQ_SUFFIX)[..|a|] && b == (b + DLQ_SUFFIX)[..|b|];
  }

  lemma NotBelow(q: Queue, p: Queue, d: nat)
    requires Unrelated(q, p)
    ensures DlqName(p, d) != q + DLQ_SUFFIX
  {
    if d == 0 {
      assert DlqName(q, 1) == DlqName(q, 0) + DLQ_SUFFIX;
    } else {
      assert DlqName(p, d - 1) != q;
      SuffixCancels(DlqName(p, d - 1), q);
    }
  }

  /** Unrelated queues stay so when one goes a level down. */
  lemma UnrelatedBelow(q: Queue, p: Queue)
    requires Unrelated(q, p)
    ensures Unrelated(q + DLQ_SUFFIX, p)
  {
    forall d: nat ensures DlqName(q + DLQ_SUFFIX, d) != p && DlqName(p, d) != q + DLQ_SUFFIX {
      DlqNameBelow(q, d);
      NotBelow(q, p, d);
    }
  }

  lemma UnrelatedFrom(m: Message, m': Message, n: Message, n': Message)
    requires From(m, m') && From(n, n') && Unrelated(m.queue, n.queue)
    ensures Unrelated(m'.queue, n'.queue)
  {
    if m'.queue != m.queue { UnrelatedBelow(m.queue, n.queue); }
    assert Unrelated(n.queue, m'.queue);
    if n'.queue != n.queue { UnrelatedBelow(n.queue, m'.queue); }
  }

  // ---------------------------------------------------------------------------
  // Copies of an ID keep apart
  // ---------------------------------------------------------------------------

  /** Two messages in memory with one ID are on unrelated queues. */
  ghost predicate Apart(s: State) {
    forall o, o' :: o != o' && At(s, o).Some? && At(s, o').Some? && At(s, o).value.id == At(s, o').value.id ==>
      Unrelated(At(s, o).value.queue, At(s, o').value.queue)
  }

  lemma ApartStep(s: State, mv: Move, s': State)
    requires Owned(s) && Apart(s) && Traces(s, mv, s')
    ensures Apart(s')
  {
    forall o, o' | o != o' && At(s', o).Some? && At(s', o').Some? && At(s', o).value.id == At(s', o').value.id
      ensures Unrelated(At(s', o).value.queue, At(s', o').value.queue)
    {
      ApartHere(s, mv, s', o, o');
    }
  }

  lemma ApartHere(s: State, mv: Move, s': State, o: Spot, o': Spot)
    requires Owned(s) && Apart(s) && Traces(s, mv, s') && o != o'
    requires At(s', o).Some? && At(s', o').Some? && At(s', o).value.id == At(s', o').value.id
    ensures Unrelated(At(s', o).value.queue, At(s', o').value.queue)
  {
    assert Traced(s, mv, s', o) && Traced(s, mv, s', o');
    if mv != Fresh(o) {
      TracedFrom(s, mv, s', o);
      SpotIsIssued(s, Back(mv, o));
    }
    if mv != Fresh(o') {
      TracedFrom(s, mv, s', o');
      SpotIsIssued(s, Back(mv, o'));
    }
    BackApart(s, mv, s', o, o');
    UnrelatedFrom(At(s, Back(mv, o)).value, At(s', o).value, At(s, Back(mv, o')).value, At(s', o').value);
  }

  // ---------------------------------------------------------------------------
  // No tombstone waits below a message
  // ---------------------------------------------------------------------------

  /** No tombstone of the ID on the queue or on any dead-letter queue below it. */
  ghost predicate ClearBelow(s: State, q: Queue, id: MessageID) {
    forall d: nat :: id !in Tombstoned(LogOf(s, DlqName(q, d)))
  }

  ghost predicate HeldClear(s: State) {
    forall o :: At(s, o).Some? ==> ClearBelow(s, At(s, o).value.queue, At(s, o).value.id)
  }

  ghost predicate Tidy(s: State) { Good(s) && Apart(s) && HeldClear(s) }

  lemma ClearIsInherited(s: State, mv: Move, s': State, o: Spot, d: nat)
    requires Durable(s) && HeldClear(s) && Traces(s, mv, s') && At(s', o).Some?
    ensures var m := At(s', o).value; m.id !in Tombstoned(LogOf(s, DlqName(m.queue, d)))
  {
    var m := At(s', o).value;
    assert Traced(s, mv, s', o);
    if mv == Fresh(o) {
      assert (DlqName(m.queue, d), m.id) !in s.buried;
    } else {
      TracedFrom(s, mv, s', o);
      var m0 := At(s, Back(mv, o)).value;
      assert ClearBelow(s, m0.queue, m0.id);
      DlqNameBelow(m0.queue, d);
    }
  }

  /** Logs gain no tombstone. */
  ghost predicate NoNewTombstone(s: State, s': State) {
    forall q :: Tombstoned(LogOf(s', q)) <= Tombstoned(LogOf(s, q))
  }

  lemma HeldClearKept(s: State, mv: Move, s': State)
    requires Durable(s) && HeldClear(s) && Traces(s, mv, s') && NoNewTombstone(s, s')
    ensures HeldClear(s')
  {
    forall o | At(s', o).Some? ensures ClearBelow(s', At(s', o).value.queue, At(s', o).value.id) {
      var m := At(s', o).value;
      forall d: nat ensures m.id !in Tombstoned(LogOf(s', DlqName(m.queue, d))) {
        ClearIsInherited(s, mv, s', o, d);
      }
    }
  }

  lemma LandRecordTombstones(s: State, t: nat, s': State)
    requires t in s.tasks && s' == LandRecord(s, t)
    ensures NoNewTombstone(s, s')
  {
    var m := s.tasks[t].msg;
    TombstonedAppend(LogOf(s, m.queue), Put(m));
    forall q ensures Tombstoned(LogOf(s', q)) <= Tombstoned(LogOf(s, q)) {
      assert q != m.queue ==> LogOf(s', q) == LogOf(s, q);
    }
  }

  lemma WriteTombstones(s: State, t: nat, s': State)
    requires WriteRecord(s, t) == Some(s')
    ensures NoNewTombstone(s, s')
  {
    if s.tasks[t].msg.queue !in s.torn { LandRecordTombstones(s, t, s'); }
  }

  lemma CompactTombstones(s: State, p: Queue, s': State)
    requires CompactLog(s, p) == Some(s')
    ensures NoNewTombstone(s, s')
  {
    MessagesOfCompacted(LogOf(s, p));
  }

  /** A tombstone is written on the queue of a message that leaves memory; copies of it are on unrelated queues. */
  lemma HeldClearLand(s: State, t: nat, s': State)
    requires Owned(s) && Durable(s) && Apart(s) && HeldClear(s) && t in s.tasks && s' == LandTombstone(s, t)
    ensures HeldClear(s')
  {
    TracesBury(s, t, s');
    forall o | At(s', o).Some? ensures ClearBelow(s', At(s', o).value.queue, At(s', o).value.id) {
      forall d: nat ensures At(s', o).value.id !in Tombstoned(LogOf(s', DlqName(At(s', o).value.queue, d))) {
        ClearDespite(s, t, s', o, d);
      }
    }
  }

  lemma ClearDespite(s: State, t: nat, s': State, o: Spot, d: nat)
    requires Durable(s) && Apart(s) && HeldClear(s) && t in s.tasks && s' == LandTombstone(s, t)
    requires Traces(s, Stay, s') && At(s', o).Some?
    ensures var m := At(s', o).value; m.id !in Tombstoned(LogOf(s', DlqName(m.queue, d)))
  {
    var m, b := At(s', o).value, s.tasks[t].msg;
    var q := DlqName(m.queue, d);
    ClearIsInherited(s, Stay, s', o, d);
    if q == b.queue {
      TombstonedAppend(LogOf(s, q), Tombstone(b.id));
      assert At(s', OnTask(t)).None? && At(s, OnTask(t)) == Some(b);
      if m.id == b.id { CopyIsUnrelated(s, t, s', o, d); }
    } else {
      assert LogOf(s', q) == LogOf(s, q);
    }
  }

  lemma CopyIsUnrelated(s: State, t: nat, s': State, o: Spot, d: nat)
    requires Apart(s) && t in s.tasks && At(s', OnTask(t)).None? && Traces(s, Stay, s') && At(s', o).Some?
    requires At(s', o).value.id == s.tasks[t].msg.id
    ensures DlqName(At(s', o).value.queue, d) != s.tasks[t].msg.queue
  {
    assert Traced(s, Stay, s', o);
    assert At(s, OnTask(t)) == Some(s.tasks[t].msg) && o != OnTask(t);
    var m0 := At(s, o).value;
    assert Unrelated(m0.queue, s.tasks[t].msg.queue);
    DlqNameBelow(m0.queue, d);
  }

  lemma HeldClearTombstone(s: State, t: nat, s': State)
    requires Owned(s) && Durable(s) && Apart(s) && HeldClear(s) && WriteTombstone(s, t) == Some(s')
    ensures HeldClear(s')
  {
    if s.tasks[t].msg.queue in s.torn {
      TracesTombstone(s, t, s');
      HeldClearKept(s, Stay, s');
    } else {
      HeldClearLand(s, t, s');
    }
  }

  lemma HeldClearLog(s: State, step: Step, s': State)
    requires Owned(s) && Durable(s) && Apart(s) && HeldClear(s)
    requires IsLogStep(step) && !step.SRestart? && LogNext(s, step) == Some(s')
    ensures HeldClear(s')
  {
    if step.SWriteTombstone? {
      HeldClearTombstone(s, step.t, s');
    } else {
      TracesLog(s, step, s');
      if step.SWriteRecord? { WriteTombstones(s, step.t, s'); } else { CompactTombstones(s, step.q, s'); }
      HeldClearKept(s, LogMove(step), s');
    }
  }

  /**
   Within a session every step keeps copies of an ID on unrelated queues, and no message has a tombstone on its queue or
   below it.
   */
  lemma TidyStep(s: State, step: Step, s': State)
    requires Tidy(s) && !step.SRestart? && Next(s, step) == Some(s')
    ensures Tidy(s')
  {
    var mv := StepTraces(s, step, s');
    StepKeepsGood(s, step, s');
    ApartStep(s, mv, s');
    if IsLogStep(step) {
      HeldClearLog(s, step, s');
    } else {
      StepFrame(s, step, s');
      HeldClearKept(s, mv, s');
    }
  }

  ghost predicate Booted(s: State) {
    s == Boot(s.maxRetries, s.logs, s.torn, s.issued, s.known, s.landed, s.buried)
  }

  /** At startup: no replayed message has a tombstone in the log of a dead-letter queue below its own queue. */
  ghost predicate ClearAtBoot(s: State) {
    forall q, m, d: nat :: m in Live(LogOf(s, q)) && d > 0 ==> m.id !in Tombstoned(LogOf(s, DlqName(q, d)))
  }

  ghost predicate ReplayedAt(s: State, q: Queue, i: nat, id: MessageID) {
    i < |Live(LogOf(s, q))| && Live(LogOf(s, q))[i].id == id
  }

  /** At startup: no ID is replayed twice from one queue, or from a queue and a dead-letter queue below it. */
  ghost predicate ApartAtBoot(s: State) {
    forall q, d: nat, i, j, id :: ReplayedAt(s, q, i, id) && ReplayedAt(s, DlqName(q, d), j, id) ==> d == 0 && i == j
  }

  lemma BootSpots(s: State, o: Spot)
    requires Booted(s) && Routed(s) && At(s, o).Some?
    ensures o.OnTopic? && o.q == At(s, o).value.queue
    ensures o.i < |Live(LogOf(s, o.q))| && Live(LogOf(s, o.q))[o.i] == At(s, o).value
  {
  }

  lemma BootIsClear(s: State)
    requires Booted(s) && Routed(s) && ClearAtBoot(s)
    ensures HeldClear(s)
  {
    forall o | At(s, o).Some? ensures ClearBelow(s, At(s, o).value.queue, At(s, o).value.id) {
      var m := At(s, o).value;
      BootSpots(s, o);
      WithoutMembers(Messages(LogOf(s, m.queue)), Tombstoned(LogOf(s, m.queue)));
      assert m in Live(LogOf(s, m.queue));
      forall d: nat ensures m.id !in Tombstoned(LogOf(s, DlqName(m.queue, d))) { }
    }
  }

  lemma BootIsApart(s: State)
    requires Booted(s) && Routed(s) && ApartAtBoot(s)
    ensures Apart(s)
  {
    forall o, o' | o != o' && At(s, o).Some? && At(s, o').Some? && At(s, o).value.id == At(s, o').value.id
      ensures Unrelated(At(s, o).value.queue, At(s, o').value.queue)
    {
      BootSpots(s, o);
      BootSpots(s, o');
      var id := At(s, o).value.id;
      assert ReplayedAt(s, o.q, o.i, id) && ReplayedAt(s, o'.q, o'.i, id);
      forall d: nat ensures DlqName(o.q, d) != o'.q && DlqName(o'.q, d) != o.q { }
    }
  }

  // ---------------------------------------------------------------------------
  // What a session appends
  // ---------------------------------------------------------------------------

  lemma {:induction false} TidyInSession(s: State, steps: seq<Step>, s': State)
    requires Tidy(s) && Session(s, steps, s')
    ensures Tidy(s')
  {
    if steps != [] {
      var init, last := steps[..|steps| - 1], steps[|steps| - 1];
      TidyInSession(s, init, Run(s, init).value);
      TidyStep(Run(s, init).value, last, s');
    }
  }

  /** From `s` to `s'` the log of `q` gained `suffix`, none of whose messages has a tombstone in it before. */
  ghost predicate GainedFresh(s: State, s': State, q: Queue, suffix: seq<Record>) {
    && LogOf(s', q) == LogOf(s, q) + suffix
    && forall m :: m in Messages(suffix) ==> m.id !in Tombstoned(LogOf(s, q))
  }

  lemma LandIsFresh(s: State, t: nat, s': State, q: Queue) returns (suffix: seq<Record>)
    requires HeldClear(s) && t in s.tasks && s' == LandRecord(s, t)
    ensures GainedFresh(s, s', q, suffix)
  {
    var m := s.tasks[t].msg;
    suffix := if q == m.queue then [Put(m)] else [];
    assert At(s, OnTask(t)) == Some(m);
    assert DlqName(m.queue, 0) == m.queue;
    OnePut(m);
  }

  lemma LandTombstoneIsFresh(s: State, t: nat, s': State, q: Queue) returns (suffix: seq<Record>)
    requires t in s.tasks && s' == LandTombstone(s, t)
    ensures GainedFresh(s, s', q, suffix)
  {
    var m := s.tasks[t].msg;
    if q == m.queue {
      suffix := [Tombstone(m.id)];
      TombstoneAddsNoMessage([], m.id);
    } else {
      suffix := [];
    }
  }

  lemma WriteIsFresh(s: State, t: nat, s': State, q: Queue) returns (suffix: seq<Record>)
    requires HeldClear(s) && WriteRecord(s, t) == Some(s')
    ensures GainedFresh(s, s', q, suffix)
  {
    suffix := [];
    if s.tasks[t].msg.queue !in s.torn { suffix := LandIsFresh(s, t, s', q); }
  }

  lemma TombstoneIsFresh(s: State, t: nat, s': State, q: Queue) returns (suffix: seq<Record>)
    requires WriteTombstone(s, t) == Some(s')
    ensures GainedFresh(s, s', q, suffix)
  {
    suffix := [];
    if s.tasks[t].msg.queue !in s.torn { suffix := LandTombstoneIsFresh(s, t, s', q); }
  }

  lemma LogStepIsFresh(s: State, step: Step, s': State, q: Queue) returns (suffix: seq<Record>)
    requires HeldClear(s) && IsLogStep(step) && !step.SRestart? && !(step.SCompactLog? && step.q == q)
    requires LogNext(s, step) == Some(s')
    ensures GainedFresh(s, s', q, suffix)
  {
    suffix := [];
    if step.SWriteRecord? {
      suffix := WriteIsFresh(s, step.t, s', q);
    } else if step.SWriteTombstone? {
      suffix := TombstoneIsFresh(s, step.t, s', q);
    }
  }

  lemma StepIsFresh(s: State, step: Step, s': State, q: Queue) returns (suffix: seq<Record>)
    requires HeldClear(s) && !step.SRestart? && !(step.SCompactLog? && step.q == q) && Next(s, step) == Some(s')
    ensures GainedFresh(s, s', q, suffix)
  {
    if IsLogStep(step) {
      suffix := LogStepIsFresh(s, step, s', q);
    } else {
      suffix := [];
      StepFrame(s, step, s');
    }
  }

  lemma GainedMore(s: State, s1: State, s2: State, q: Queue, a: seq<Record>, b: seq<Record>)
    requires GainedFresh(s, s1, q, a) && GainedFresh(s1, s2, q, b)
    ensures GainedFresh(s, s2, q, a + b)
  {
    MessagesConcat(a, b);
    TombstonedConcat(LogOf(s, q), a);
  }

  lemma {:induction false} SessionGainsFresh(s: State, steps: seq<Step>, s': State, q: Queue) returns (suffix: seq<Record>)
    requires Tidy(s) && Appends(s, steps, s', q)
    ensures GainedFresh(s, s', q, suffix)
  {
    suffix := [];
    if steps != [] {
      var init, last := steps[..|steps| - 1], steps[|steps| - 1];
      var before := Run(s, init).value;
      var head := SessionGainsFresh(s, init, before, q);
      TidyInSession(s, init, before);
      var tail := StepIsFresh(before, last, s', q);
      GainedMore(s, before, s', q, head, tail);
      suffix := head + tail;
    }
  }

  /**
   Compacting any log that is clean at that moment of the session is invisible to every replay later in the session: the
   same steps can be taken after it, and the log replays the same.
   */
  ghost predicate HidesCompaction(boot: State) {
    forall past, s, steps, s', q ::
      Session(boot, past, s) && Compactable(s, q) && q !in s.torn && Appends(s, steps, s', q) ==> Hidden(s, steps, s', q)
  }

  lemma HiddenExactly(s: State, steps: seq<Step>, s': State, q: Queue, suffix: seq<Record>)
    requires Compactable(s, q) && q !in s.torn && Appends(s, steps, s', q) && LogOf(s', q) == LogOf(s, q) + suffix
    ensures Hidden(s, steps, s', q) <==> !Resurrects(LogOf(s, q), suffix)
  {
    HiddenOnClean(s, steps, s', q);
    assert (LogOf(s, q) + suffix)[|LogOf(s, q)|..] == suffix;
    assert (LogOf(s, q) + Attempted(s, steps, q).recs)[|LogOf(s, q)|..] == Attempted(s, steps, q).recs;
  }

  lemma TidyHides(s: State, steps: seq<Step>, s': State, q: Queue)
    requires Tidy(s) && Compactable(s, q) && q !in s.torn && Appends(s, steps, s', q)
    ensures Hidden(s, steps, s', q)
  {
    var suffix := SessionGainsFresh(s, steps, s', q);
    HiddenExactly(s, steps, s', q, suffix);
  }

  /** If the logs are so at startup, nothing the session does can ever reveal the compaction of a clean log. */
  lemma TidySessionHides(boot: State)
    requires Good(boot) && Booted(boot) && ClearAtBoot(boot) && ApartAtBoot(boot)
    ensures HidesCompaction(boot)
  {
    BootIsClear(boot);
    BootIsApart(boot);
    forall past, s, steps, s', q | Session(boot, past, s) && Compactable(s, q) && q !in s.torn && Appends(s, steps, s', q)
      ensures Hidden(s, steps, s', q)
    {
      TidyInSession(boot, past, s);
      TidyHides(s, steps, s', q);
    }
  }
}
