/** The clock of a message: set when it is published, kept by retries, and set anew by each dead-lettering. */
module Timing {
  import opened Core
  import opened Log
  import opened Broker
  import opened Ownership
  import opened Durability
  import opened History
  import opened HistorySteps
  import opened Safety
  import opened Theorems
  import opened Descent
  import opened Contents
  import opened Notes

  /** The stamp that counts after `k` negative outcomes: that of the publish, or of the last outcome that dead-lettered. */
  function StampNo(k: nat, maxRetries: int32): nat { if k <= Budget(maxRetries) then 0 else k }

  ghost predicate Stamped(s: State, n: Notes, m: Message, k: nat) {
    (m.id, StampNo(k, s.maxRetries)) in n.stamps && m.enqueueTime == n.stamps[(m.id, StampNo(k, s.maxRetries))]
  }

  /** How many negative outcomes the message at the spot has had. */
  ghost predicate OutcomesAt(s: State, o: Spot, id: MessageID, k: nat) {
    id in s.writes && s.writes[id] == if AheadAt(s, o) then k else k + 1
  }

  ghost predicate OnTime(s: State, n: Notes, o: Spot, m: Message) { exists k: nat :: OutcomesAt(s, o, m.id, k) && Stamped(s, n, m, k) }

  ghost predicate HeldOnTime(s: State, n: Notes) {
    forall o :: At(s, o).Some? && At(s, o).value.id in s.home ==> OnTime(s, n, o, At(s, o).value)
  }

  /** The record of a message is the one written after `k` negative outcomes. */
  ghost predicate WrittenAs(s: State, m: Message, k: nat) {
    m.id in s.home && m.id in s.writes && k < s.writes[m.id] && HasForm(m, s.home[m.id], k, s.maxRetries)
  }

  ghost predicate RecordOnTime(s: State, n: Notes, m: Message) { exists k: nat :: WrittenAs(s, m, k) && Stamped(s, n, m, k) }

  ghost predicate LoggedOnTime(s: State, n: Notes) {
    forall q, m :: m in Messages(LogOf(s, q)) && m.id in s.home ==> RecordOnTime(s, n, m)
  }

  ghost predicate AllOnTime(s: State, n: Notes) { HeldOnTime(s, n) && LoggedOnTime(s, n) }

  lemma NothingTimed(s: State, n: Notes)
    requires s.home == map[]
    ensures AllOnTime(s, n)
  {
  }

  // ---------------------------------------------------------------------------
  // Steps
  // ---------------------------------------------------------------------------

  function PlaceFor(o: Spot): Place {
    match o
    case OnTask(t) => AtTask(t)
    case OnRemoval(r) => AtRemoval(r)
    case OnTopic(q, i) => AtTopic(q)
    case OnHand(q) => AtHand(q)
    case OnFlight(id) => AtFlight
  }

  /** A published message is at one spot. */
  lemma OneSpot(s: State, o: Spot, o': Spot)
    requires Owned(s) && Settled(s) && At(s, o).Some? && At(s, o').Some?
    requires At(s, o).value.id == At(s, o').value.id && At(s, o).value.id in s.home
    ensures o == o'
  {
    HeldFits(s, PlaceFor(o), At(s, o).value);
    HeldFits(s, PlaceFor(o'), At(s, o').value);
  }

  /** Nothing that bears on the time of `id` changes. */
  ghost predicate SameTime(s: State, n: Notes, s': State, n': Notes, id: MessageID) {
    && s'.maxRetries == s.maxRetries && (id in s'.home ==> id in s.home && s'.home[id] == s.home[id])
    && (id in s.writes ==> id in s'.writes && s'.writes[id] == s.writes[id])
    && forall k :: (id, k) in n.stamps ==> (id, k) in n'.stamps && n'.stamps[(id, k)] == n.stamps[(id, k)]
  }

  lemma OnTimeMoved(s: State, n: Notes, mv: Move, s': State, n': Notes, o: Spot)
    requires HeldOnTime(s, n) && At(s', o).Some? && At(s', o).value.id in s'.home
    requires Traced(s, mv, s', o) && mv != Fresh(o) && mv != Turn(o) && mv != Log(o)
    requires SameTime(s, n, s', n', At(s', o).value.id)
    ensures OnTime(s', n', o, At(s', o).value)
  {
    var m, m' := At(s, Back(mv, o)).value, At(s', o).value;
    assert Same(m, m');
    assert OnTime(s, n, Back(mv, o), m);
    var k: nat :| OutcomesAt(s, Back(mv, o), m.id, k) && Stamped(s, n, m, k);
    assert OutcomesAt(s', o, m'.id, k) && Stamped(s', n', m', k);
  }

  lemma RecordStays(s: State, n: Notes, s': State, n': Notes, m: Message)
    requires RecordOnTime(s, n, m) && m.id in s'.home && SameTime(s, n, s', n', m.id)
    ensures RecordOnTime(s', n', m)
  {
    var k: nat :| WrittenAs(s, m, k) && Stamped(s, n, m, k);
    assert WrittenAs(s', m, k) && Stamped(s', n', m, k);
  }

  lemma TaskOnTime(s: State, n: Notes, t: nat) returns (k: nat)
    requires HeldOnTime(s, n) && t in s.tasks && s.tasks[t].msg.id in s.home
    ensures OutcomesAt(s, OnTask(t), s.tasks[t].msg.id, k) && Stamped(s, n, s.tasks[t].msg, k)
  {
    var m := s.tasks[t].msg;
    assert At(s, OnTask(t)) == Some(m) && OnTime(s, n, OnTask(t), m);
    k :| OutcomesAt(s, OnTask(t), m.id, k) && Stamped(s, n, m, k);
  }

  // Publishing

  lemma PublishSameTime(s: State, n: Notes, t: nat, m: Message, s': State, id: MessageID)
    requires Publish(s, t, m) == Some(s') && id != m.id
    ensures SameTime(s, n, s', Noted(n, s, SPublish(t, m)), id)
  {
  }

  lemma PublishOnTime(s: State, n: Notes, t: nat, m: Message, s': State)
    requires Good(s) && HeldOnTime(s, n) && Publish(s, t, m) == Some(s')
    ensures HeldOnTime(s', Noted(n, s, SPublish(t, m)))
  {
    var n' := Noted(n, s, SPublish(t, m));
    TracesPublish(s, t, m, s');
    forall o | At(s', o).Some? && At(s', o).value.id in s'.home ensures OnTime(s', n', o, At(s', o).value) {
      assert Traced(s, Fresh(OnTask(t)), s', o);
      if o == OnTask(t) { PublishedOnTime(s, n, t, m, s'); } else { PublishElsewhere(s, n, t, m, s', o); }
    }
  }

  lemma PublishElsewhere(s: State, n: Notes, t: nat, m: Message, s': State, o: Spot)
    requires Good(s) && HeldOnTime(s, n) && Publish(s, t, m) == Some(s') && o != OnTask(t)
    requires At(s', o).Some? && At(s', o).value.id in s'.home && Traced(s, Fresh(OnTask(t)), s', o)
    ensures OnTime(s', Noted(n, s, SPublish(t, m)), o, At(s', o).value)
  {
    SpotIsIssued(s, o);
    PublishSameTime(s, n, t, m, s', At(s', o).value.id);
    OnTimeMoved(s, n, Fresh(OnTask(t)), s', Noted(n, s, SPublish(t, m)), o);
  }

  lemma PublishedOnTime(s: State, n: Notes, t: nat, m: Message, s': State)
    requires Publish(s, t, m) == Some(s')
    ensures OnTime(s', Noted(n, s, SPublish(t, m)), OnTask(t), m)
  {
    assert OutcomesAt(s', OnTask(t), m.id, 0) && Stamped(s', Noted(n, s, SPublish(t, m)), m, 0);
  }

  lemma PublishLogged(s: State, n: Notes, t: nat, m: Message, s': State)
    requires Good(s) && LoggedOnTime(s, n) && Publish(s, t, m) == Some(s')
    ensures LoggedOnTime(s', Noted(n, s, SPublish(t, m)))
  {
    var n' := Noted(n, s, SPublish(t, m));
    forall q, r | r in Messages(LogOf(s', q)) && r.id in s'.home ensures RecordOnTime(s', n', r) {
      MessageIsIssued(s, q, r);
      PublishSameTime(s, n, t, m, s', r.id);
      RecordStays(s, n, s', n', r);
    }
  }

  // A negative outcome

  lemma RetrySameTime(s: State, n: Notes, t: nat, now: Instant, s': State, id: MessageID)
    requires Retry(s, t, now) == Some(s') && id != s.tasks[t].msg.id
    ensures SameTime(s, n, s', Noted(n, s, SRetry(t, now)), id)
  {
  }

  /** Retries left: the message keeps its clock. None left: it gets the reading of the outcome. */
  lemma RetryStamps(s: State, n: Notes, t: nat, now: Instant, s': State, k: nat)
    requires Retry(s, t, now) == Some(s') && !s.closing
    requires OutcomesAt(s, OnTask(t), s.tasks[t].msg.id, k) && Stamped(s, n, s.tasks[t].msg, k)
    requires s.tasks[t].msg.retryCount == RetryAfter(k, s.maxRetries)
    ensures Stamped(s', Noted(n, s, SRetry(t, now)), s'.tasks[t].msg, k + 1)
    ensures OutcomesAt(s', OnTask(t), s.tasks[t].msg.id, k + 1)
  {
  }

  lemma RetryOnTime(s: State, n: Notes, t: nat, now: Instant, s': State)
    requires Good(s) && HeldOnTime(s, n) && Retry(s, t, now) == Some(s')
    ensures HeldOnTime(s', Noted(n, s, SRetry(t, now)))
  {
    var n', mv := Noted(n, s, SRetry(t, now)), RetryMove(s, t);
    TracesRetry(s, t, now, s');
    forall o | At(s', o).Some? && At(s', o).value.id in s'.home ensures OnTime(s', n', o, At(s', o).value) {
      assert Traced(s, mv, s', o);
      if o == OnTask(t) && !s.closing {
        RetriedOnTime(s, n, t, now, s');
      } else {
        RetryElsewhere(s, n, t, now, s', o);
      }
    }
  }

  lemma RetriedOnTime(s: State, n: Notes, t: nat, now: Instant, s': State)
    requires Good(s) && HeldOnTime(s, n) && Retry(s, t, now) == Some(s') && !s.closing && s.tasks[t].msg.id in s.home
    ensures OnTime(s', Noted(n, s, SRetry(t, now)), OnTask(t), s'.tasks[t].msg)
  {
    var m := s.tasks[t].msg;
    var k := TaskOnTime(s, n, t);
    assert HoldsMsg(s, AtTask(t), m) && Fits(s, AtTask(t), m);
    RetryStamps(s, n, t, now, s', k);
  }

  lemma RetryElsewhere(s: State, n: Notes, t: nat, now: Instant, s': State, o: Spot)
    requires Good(s) && HeldOnTime(s, n) && Retry(s, t, now) == Some(s')
    requires o != OnTask(t) || s.closing
    requires At(s', o).Some? && At(s', o).value.id in s'.home && Traced(s, RetryMove(s, t), s', o)
    ensures OnTime(s', Noted(n, s, SRetry(t, now)), o, At(s', o).value)
  {
    if At(s', o).value.id == s.tasks[t].msg.id { OneSpot(s, o, OnTask(t)); }
    RetrySameTime(s, n, t, now, s', At(s', o).value.id);
    OnTimeMoved(s, n, RetryMove(s, t), s', Noted(n, s, SRetry(t, now)), o);
  }

  lemma RetryLogged(s: State, n: Notes, t: nat, now: Instant, s': State)
    requires LoggedOnTime(s, n) && Retry(s, t, now) == Some(s')
    ensures LoggedOnTime(s', Noted(n, s, SRetry(t, now)))
  {
    var n' := Noted(n, s, SRetry(t, now));
    forall q, r | r in Messages(LogOf(s', q)) && r.id in s'.home ensures RecordOnTime(s', n', r) {
      assert LogOf(s', q) == LogOf(s, q);
      RetryRecord(s, n, t, now, s', r);
    }
  }

  /** The reading of the outcome is not that of any record written before. */
  lemma RetryRecord(s: State, n: Notes, t: nat, now: Instant, s': State, r: Message)
    requires RecordOnTime(s, n, r) && Retry(s, t, now) == Some(s')
    ensures RecordOnTime(s', Noted(n, s, SRetry(t, now)), r)
  {
    var k: nat :| WrittenAs(s, r, k) && Stamped(s, n, r, k);
    assert WrittenAs(s', r, k) && Stamped(s', Noted(n, s, SRetry(t, now)), r, k);
  }

  // Writing the record

  lemma LandWrote(s: State, t: nat, s': State)
    requires IsReady(s, t) && s' == LandRecord(s, t)
    ensures Wrote(s, t, s')
  {
  }

  lemma SwallowWrote(s: State, t: nat, s': State)
    requires IsReady(s, t) && s' == SwallowRecord(s, t)
    ensures Wrote(s, t, s')
  {
  }

  lemma WriteWrote(s: State, t: nat, s': State)
    requires WriteRecord(s, t) == Some(s')
    ensures Wrote(s, t, s')
  {
    if s.tasks[t].msg.queue in s.torn { SwallowWrote(s, t, s'); } else { LandWrote(s, t, s'); }
  }

  lemma WroteSameTime(s: State, n: Notes, t: nat, s': State, id: MessageID)
    requires Wrote(s, t, s') && id != s.tasks[t].msg.id
    ensures SameTime(s, n, s', n, id)
  {
  }

  lemma WriteOnTime(s: State, n: Notes, t: nat, s': State)
    requires Good(s) && HeldOnTime(s, n) && Wrote(s, t, s') && Traces(s, Log(OnTask(t)), s')
    ensures HeldOnTime(s', n)
  {
    forall o | At(s', o).Some? && At(s', o).value.id in s'.home ensures OnTime(s', n, o, At(s', o).value) {
      assert Traced(s, Log(OnTask(t)), s', o);
      if o == OnTask(t) {
        WrittenOnTime(s, n, t, s');
      } else {
        WriteElsewhere(s, n, t, s', o);
      }
    }
  }

  lemma WrittenOnTime(s: State, n: Notes, t: nat, s': State)
    requires HeldOnTime(s, n) && Wrote(s, t, s') && s.tasks[t].msg.id in s.home
    ensures OnTime(s', n, OnTask(t), s.tasks[t].msg)
  {
    var k := TaskOnTime(s, n, t);
    assert OutcomesAt(s', OnTask(t), s.tasks[t].msg.id, k) && Stamped(s', n, s.tasks[t].msg, k);
  }

  lemma WriteElsewhere(s: State, n: Notes, t: nat, s': State, o: Spot)
    requires Good(s) && HeldOnTime(s, n) && Wrote(s, t, s') && o != OnTask(t)
    requires At(s', o).Some? && At(s', o).value.id in s'.home && Traced(s, Log(OnTask(t)), s', o)
    ensures OnTime(s', n, o, At(s', o).value)
  {
    if At(s', o).value.id == s.tasks[t].msg.id { OneSpot(s, o, OnTask(t)); }
    WroteSameTime(s, n, t, s', At(s', o).value.id);
    OnTimeMoved(s, n, Log(OnTask(t)), s', n, o);
  }

  /** A record of the message at task `t`, or one that was in the log before. */
  lemma WriteLogged(s: State, n: Notes, t: nat, s': State)
    requires Good(s) && AllOnTime(s, n) && Wrote(s, t, s')
    requires forall q, r :: r in Messages(LogOf(s', q)) ==> r in Messages(LogOf(s, q)) || r == Stored(s.tasks[t].msg)
    ensures LoggedOnTime(s', n)
  {
    forall q, r | r in Messages(LogOf(s', q)) && r.id in s'.home ensures RecordOnTime(s', n, r) {
      if r in Messages(LogOf(s, q)) { OldRecordOnTime(s, n, t, s', r); } else { NewRecordOnTime(s, n, t, s', r); }
    }
  }

  lemma OldRecordOnTime(s: State, n: Notes, t: nat, s': State, r: Message)
    requires RecordOnTime(s, n, r) && Wrote(s, t, s')
    ensures RecordOnTime(s', n, r)
  {
    var k: nat :| WrittenAs(s, r, k) && Stamped(s, n, r, k);
    assert WrittenAs(s', r, k) && Stamped(s', n, r, k);
  }

  lemma NewRecordOnTime(s: State, n: Notes, t: nat, s': State, r: Message)
    requires Good(s) && HeldOnTime(s, n) && Wrote(s, t, s') && r == Stored(s.tasks[t].msg) && r.id in s.home
    ensures RecordOnTime(s', n, r)
  {
    var m := s.tasks[t].msg;
    var k := TaskOnTime(s, n, t);
    assert HoldsMsg(s, AtTask(t), m) && Fits(s, AtTask(t), m);
    assert WrittenAs(s', r, k) && Stamped(s', n, r, k);
  }

  // The other steps

  lemma PlainOnTime(s: State, n: Notes, mv: Move, s': State, n': Notes)
    requires HeldOnTime(s, n) && Traces(s, mv, s') && !mv.Fresh? && !mv.Turn? && !mv.Log?
    requires s'.home == s.home && s'.writes == s.writes && s'.maxRetries == s.maxRetries && n'.stamps == n.stamps
    ensures HeldOnTime(s', n')
  {
    forall o | At(s', o).Some? && At(s', o).value.id in s'.home ensures OnTime(s', n', o, At(s', o).value) {
      assert Traced(s, mv, s', o);
      OnTimeMoved(s, n, mv, s', n', o);
    }
  }

  lemma PlainLogged(s: State, n: Notes, s': State, n': Notes)
    requires LoggedOnTime(s, n) && s'.home == s.home && s'.writes == s.writes && s'.maxRetries == s.maxRetries
    requires n'.stamps == n.stamps && forall q, m :: m in Messages(LogOf(s', q)) ==> m in Messages(LogOf(s, q))
    ensures LoggedOnTime(s', n')
  {
    forall q, r | r in Messages(LogOf(s', q)) && r.id in s'.home ensures RecordOnTime(s', n', r) {
      RecordStays(s, n, s', n', r);
    }
  }

  lemma OnTimeLog(s: State, n: Notes, step: Step, s': State)
    requires Good(s) && AllOnTime(s, n) && IsLogStep(step) && !step.SRestart? && LogNext(s, step) == Some(s')
    ensures AllOnTime(s', n)
  {
    TracesLog(s, step, s');
    forall q, m | m in Messages(LogOf(s', q))
      ensures m in Messages(LogOf(s, q)) || (step.SWriteRecord? && m == Stored(s.tasks[step.t].msg))
    {
      LogStepMessages(s, step, s', q, m);
    }
    if step.SWriteRecord? {
      WriteWrote(s, step.t, s');
      WriteOnTime(s, n, step.t, s');
      WriteLogged(s, n, step.t, s');
    } else {
      LogStepFrame(s, step, s');
      SameWrites(s, step, s');
      PlainOnTime(s, n, Stay, s', n);
      PlainLogged(s, n, s', n);
    }
  }

  lemma BuryWrites(s: State, t: nat)
    requires t in s.tasks
    ensures LandTombstone(s, t).writes == s.writes && WithoutTask(s, t, Gone).writes == s.writes
  {
  }

  lemma SameWrites(s: State, step: Step, s': State)
    requires (step.SWriteTombstone? || step.SCompactLog?) && LogNext(s, step) == Some(s')
    ensures s'.writes == s.writes
  {
    if step.SWriteTombstone? {
      BuryWrites(s, step.t);
      assert s' == if s.tasks[step.t].msg.queue in s.torn then WithoutTask(s, step.t, Gone) else LandTombstone(s, step.t);
    }
  }

  lemma OnTimeRetry(s: State, n: Notes, t: nat, now: Instant, s': State)
    requires Good(s) && AllOnTime(s, n) && Retry(s, t, now) == Some(s')
    ensures AllOnTime(s', Noted(n, s, SRetry(t, now)))
  {
    RetryOnTime(s, n, t, now, s');
    RetryLogged(s, n, t, now, s');
  }

  lemma OnTimePublish(s: State, n: Notes, t: nat, m: Message, s': State)
    requires Good(s) && AllOnTime(s, n) && Publish(s, t, m) == Some(s')
    ensures AllOnTime(s', Noted(n, s, SPublish(t, m)))
  {
    PublishOnTime(s, n, t, m, s');
    PublishLogged(s, n, t, m, s');
  }

  lemma OnTimePlain(s: State, n: Notes, step: Step, s': State)
    requires Good(s) && AllOnTime(s, n) && !IsLogStep(step) && !step.SPublish? && !step.SRetry? && Next(s, step) == Some(s')
    ensures AllOnTime(s', Noted(n, s, step))
  {
    var mv := StepTraces(s, step, s');
    PlainStepFrame(s, step, s');
    NotedOnly(n, s, step);
    PlainOnTime(s, n, mv, s', Noted(n, s, step));
    PlainLogged(s, n, s', Noted(n, s, step));
  }

  lemma OnTimeStep(s: State, n: Notes, step: Step, s': State)
    requires Good(s) && AllOnTime(s, n) && !step.SRestart? && Next(s, step) == Some(s')
    ensures AllOnTime(s', Noted(n, s, step))
  {
    if IsLogStep(step) {
      OnTimeLog(s, n, step, s');
      StampsStay(s, n, step, s');
    } else if step.SPublish? {
      OnTimePublish(s, n, step.t, step.m, s');
    } else if step.SRetry? {
      OnTimeRetry(s, n, step.t, step.now, s');
    } else {
      OnTimePlain(s, n, step, s');
    }
  }

  lemma StampsStay(s: State, n: Notes, step: Step, s': State)
    requires IsLogStep(step) && !step.SRestart?
    ensures Noted(n, s, step) == n
  {
  }

  lemma {:induction false} ReachableOnTime(start: State, steps: seq<Step>, s: State)
    requires Reachable(s, start, steps)
    ensures AllOnTime(s, NotesOf(start, steps))
  {
    if steps == [] {
      NothingTimed(s, BLANK);
    } else {
      var init, last := steps[..|steps| - 1], steps[|steps| - 1];
      var before, n := Run(start, init).value, NotesOf(start, init);
      ReachableOnTime(start, init, before);
      ReachableIsGood(start, init, before);
      if last.SRestart? {
        AfterRestart(before, last, s);
        NothingTimed(s, BLANK);
      } else {
        OnTimeStep(before, n, last, s);
      }
    }
  }

  // ---------------------------------------------------------------------------
  // Every run
  // ---------------------------------------------------------------------------

  /** The stamp that counts on the dead-letter queue `depth` levels below home, or, for depth 0, on the home queue. */
  function StampAt(depth: nat, maxRetries: int32): nat { if depth == 0 then 0 else Budget(maxRetries) + depth }

  lemma StampByDepth(home: Queue, k: nat, depth: nat, maxRetries: int32)
    requires QueueAfter(home, k, maxRetries) == DlqName(home, depth)
    ensures StampNo(k, maxRetries) == StampAt(depth, maxRetries)
  {
    DlqNameLength(home, depth);
    DlqNameLength(home, if k <= Budget(maxRetries) then 0 else k - Budget(maxRetries));
  }

  ghost predicate HasStamp(n: Notes, m: Message, k: nat) { (m.id, k) in n.stamps && m.enqueueTime == n.stamps[(m.id, k)] }

  lemma FormAt(s: State, o: Spot, m: Message, k: nat)
    requires Owned(s) && Settled(s) && At(s, o) == Some(m) && m.id in s.home && OutcomesAt(s, o, m.id, k)
    ensures HasForm(m, s.home[m.id], k, s.maxRetries)
  {
    HeldFits(s, PlaceFor(o), m);
    assert Fits(s, PlaceFor(o), m);
    assert AheadAt(s, o) <==> Ahead(s, PlaceFor(o));
  }

  lemma ClockAt(s: State, n: Notes, o: Spot, m: Message, depth: nat)
    requires Good(s) && HeldOnTime(s, n) && At(s, o) == Some(m)
    requires m.id in s.home && m.queue == DlqName(s.home[m.id], depth)
    ensures HasStamp(n, m, StampAt(depth, s.maxRetries))
  {
    assert OnTime(s, n, o, m);
    var k: nat :| OutcomesAt(s, o, m.id, k) && Stamped(s, n, m, k);
    FormAt(s, o, m, k);
    StampByDepth(s.home[m.id], k, depth, s.maxRetries);
  }

  /** A message on its home queue carries the time of its publish; a dead letter that of the outcome that sent it there. */
  lemma HeldClock(start: State, steps: seq<Step>, s: State, p: Place, m: Message, depth: nat)
    requires Reachable(s, start, steps) && HoldsMsg(s, p, m) && m.id in s.home && m.queue == DlqName(s.home[m.id], depth)
    ensures HasStamp(NotesOf(start, steps), m, StampAt(depth, s.maxRetries))
  {
    ReachableOnTime(start, steps, s);
    ReachableIsGood(start, steps, s);
    var o := SpotOf(s, p, m);
    ClockAt(s, NotesOf(start, steps), o, m, depth);
  }

  /** So does every copy that a replay returns. */
  lemma ReplayedClock(start: State, steps: seq<Step>, s: State, q: Queue, m: Message, depth: nat)
    requires Reachable(s, start, steps) && m in Live(LogOf(s, q)) && m.id in s.home && m.queue == DlqName(s.home[m.id], depth)
    ensures HasStamp(NotesOf(start, steps), m, StampAt(depth, s.maxRetries))
  {
    var n := NotesOf(start, steps);
    ReachableOnTime(start, steps, s);
    WithoutMembers(Messages(LogOf(s, q)), Tombstoned(LogOf(s, q)));
    assert RecordOnTime(s, n, m);
    var k: nat :| WrittenAs(s, m, k) && Stamped(s, n, m, k);
    StampByDepth(s.home[m.id], k, depth, s.maxRetries);
  }

  /** Names of dead-letter queues end in the suffix; that of a home queue may, or may not. */
  lemma DlqNameIsDlq(home: Queue, depth: nat)
    ensures depth > 0 ==> exists p: Queue :: DlqName(home, depth) == p + ".dlq"
  {
    if depth > 0 { assert DlqName(home, depth) == DlqName(home, depth - 1) + ".dlq"; }
  }

  /** An expiry takes a dead letter in flight exactly if it was dead-lettered before the cutoff. */
  lemma ExpiryTakesExactly(start: State, steps: seq<Step>, s: State, id: MessageID, depth: nat, cutoff: Instant, r: nat)
    requires Reachable(s, start, steps) && id in s.inFlight && id in s.home && r !in s.removals
    requires depth > 0 && s.inFlight[id].msg.queue == DlqName(s.home[id], depth)
    ensures var n, k := NotesOf(start, steps), StampAt(depth, s.maxRetries);
      (id, k) in n.stamps && (Take(s, id, ByExpiry(cutoff), r).Some? <==> n.stamps[(id, k)] < cutoff)
  {
    ReachableOnTime(start, steps, s);
    ReachableIsGood(start, steps, s);
    ClockAt(s, NotesOf(start, steps), OnFlight(id), s.inFlight[id].msg, depth);
    DlqNameIsDlq(s.home[id], depth);
    IsDlqExactly(s.inFlight[id].msg.queue);
  }

  /** The same for a dead letter that waits in its topic. */
  lemma PendingExpiresExactly(start: State, steps: seq<Step>, s: State, q: Queue, i: nat, depth: nat, cutoff: Instant, t: nat)
    requires Reachable(s, start, steps) && i < |TopicOf(s, q)| && t !in s.tasks
    requires var id := TopicOf(s, q)[i].id; id in s.home && depth > 0 && q == DlqName(s.home[id], depth)
    ensures var n, k, id := NotesOf(start, steps), StampAt(depth, s.maxRetries), TopicOf(s, q)[i].id;
      (id, k) in n.stamps && (ExpirePending(s, q, i, cutoff, t).Some? <==> n.stamps[(id, k)] < cutoff)
  {
    var m := TopicOf(s, q)[i];
    ReachableIsGood(start, steps, s);
    assert HoldsMsg(s, AtTopic(q), m) && AllOn(s.topics[q], q);
    HeldClock(start, steps, s, AtTopic(q), m, depth);
    DlqNameIsDlq(s.home[m.id], depth);
    IsDlqExactly(q);
  }

  /** No expiry, of messages in flight or waiting, is ever enabled on a queue whose name does not end in the suffix. */
  lemma MainNeverExpires(s: State, q: Queue, cutoff: Instant)
    requires forall p: Queue :: q != p + ".dlq"
    ensures forall i, t :: Next(s, SExpirePending(q, i, cutoff, t)).None?
    ensures forall id, r :: id in s.inFlight && s.inFlight[id].msg.queue == q ==> Next(s, STake(id, ByExpiry(cutoff), r)).None?
  {
    IsDlqExactly(q);
  }
}
