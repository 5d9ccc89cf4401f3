/** Outcomes and batch scans of the acknowledgement manager are runs of the broker's single steps. */
module Batches {
  import opened Core
  import opened Broker
  import opened Runs
  import opened AckManager
  import Queues
  import Registry

  /** No operation is under way; logs can be written, except that those of `failing` queues fail. */
  ghost predicate Quiet(s: State) { s.torn == {} && !s.closed && s.tasks == map[] && s.removals == map[] }

  function Counts(cs: map<ConsumerID, Consumer>): map<ConsumerID, int> { map c | c in cs :: cs[c].count }

  /** What the acknowledgement manager sees of a state. */
  ghost function View(s: State, failing: set<Queue>): Ledger {
    Ledger(s.inFlight, Counts(s.consumers), Queues.Store(s.topics, s.logs, s.closing, failing))
  }

  lemma CountsAfter(cs: map<ConsumerID, Consumer>, c: ConsumerID, delta: int)
    ensures Counts(AddToCount(cs, c, delta)) == Registry.AddTo(Counts(cs), c, delta)
  {
  }

  /** The registered consumers as the transition system has them. */
  function Seen(r: Registry.Registry): map<ConsumerID, Consumer> reads r, r.byID.Values {
    map c | c in r.byID :: Consumer(r.byID[c].queue, r.byID[c].prefetch, r.byID[c].inFlight)
  }

  /** On the same consumers the registry finds eligible the ones that the transition system does. */
  lemma EligibleAlike(r: Registry.Registry, s: State, q: Queue)
    requires r.Valid() && s.consumers == Seen(r)
    ensures EligibleConsumers(s, q) == set c | c in r.Eligible(q) :: c.id
    ensures Counts(s.consumers) == r.Counts()
  {
    forall id | id in EligibleConsumers(s, q) ensures exists c :: c in r.Eligible(q) && c.id == id {
      assert r.byID[id] in r.Eligible(q);
    }
  }

  /** Each scan takes the entries to which its cause applies, and no others. */
  lemma CausesAgree(e: Entry, at: Instant)
    ensures TimedOut(at)(e) == Applies(ByTimeout(at), e) == (e.msg.dispatchedAt < at)
    ensures ExpiredLetter(at)(e) == Applies(ByExpiry(at), e)
    ensures Applies(ByExpiry(at), e) <==> (exists p: Queue :: e.msg.queue == p + ".dlq") && e.msg.enqueueTime < at
  {
    IsDlqExactly(e.msg.queue);
  }

  /** The removal and the decrement, up to the task that carries the outcome out. */
  ghost predicate Removed(s: State, s': State, id: MessageID, after: After)
    requires id in s.inFlight
  {
    && s'.tasks == map[0 := TaskAfter(Removal(s.inFlight[id], after))] && s'.removals == map[]
    && s'.inFlight == s.inFlight - {id} && s'.consumers == AddToCount(s.consumers, s.inFlight[id].consumer, -1)
    && Kept(s, s') && s'.logs == s.logs && s'.topics == s.topics
  }

  lemma Remove(start: State, s: State, id: MessageID, cause: Cause) returns (s': State)
    requires Reaches(start, s) && Quiet(s) && id in s.inFlight && Applies(cause, s.inFlight[id])
    ensures Reaches(start, s') && Removed(s, s', id, AfterOf(cause))
  {
    var s1 := DoTake(s, id, cause);
    Extend(start, s, STake(id, cause, 0), s1);
    s' := DoDecrement(s1, s.inFlight[id], AfterOf(cause));
    Extend(start, s1, SDecrement(0, 0), s');
  }

  lemma DoDrop(s: State, m: Message, now: Instant) returns (s': State)
    requires s.tasks == map[0 := Requeueing(m)] && s.closing
    ensures Next(s, SRetry(0, now)) == Some(s') && s' == s.(tasks := map[], owner := s'.owner)
  {
    s' := WithoutTask(s, 0, Gone);
    assert s'.tasks == map[];
  }

  lemma DoFailWrite(s: State, m: Message) returns (s': State)
    requires s.tasks == map[0 := Ready(m)] || s.tasks == map[0 := Burying(m)]
    ensures Next(s, SFailWrite(0)) == Some(s') && s' == s.(tasks := map[], owner := s'.owner)
  {
    s' := WithoutTask(s, 0, Gone);
    assert s'.tasks == map[];
  }

  /** What the enqueue of the returned message leaves of topics and logs. */
  ghost predicate Requeued(s: State, s': State, m: Message, failing: set<Queue>) {
    && Kept(s, s') && s'.tasks == map[] && s'.removals == s.removals && s'.inFlight == s.inFlight && s'.consumers == s.consumers
    && Queues.Store(s'.topics, s'.logs, s'.closing, failing)
       == Queues.Enqueued(Queues.Store(s.topics, s.logs, s.closing, failing), m)
  }

  lemma ReturnFailing(start: State, s: State, m: Message, failing: set<Queue>) returns (s': State)
    requires Reaches(start, s) && s.tasks == map[0 := Checked(m)] && !s.closing && m.queue in failing
    ensures Reaches(start, s') && Requeued(s, s', m, failing)
  {
    var s1 := DoInitQueue(s, m);
    Extend(start, s, SInitQueue(0), s1);
    s' := DoFailWrite(s1, m);
    Extend(start, s1, SFailWrite(0), s');
  }

  lemma ReturnWritten(start: State, s: State, m: Message, failing: set<Queue>) returns (s': State)
    requires Reaches(start, s) && s.tasks == map[0 := Checked(m)] && !s.closing && !s.closed && s.torn == {} && m.queue !in failing
    ensures Reaches(start, s') && Requeued(s, s', m, failing)
  {
    s' := Enter(start, s, m);
  }

  /** The whole of `nackEntry` after the decrement. */
  lemma PutBack(start: State, s: State, m: Message, now: Instant, failing: set<Queue>) returns (s': State)
    requires Reaches(start, s) && s.tasks == map[0 := Requeueing(m)] && !s.closed && s.torn == {}
    ensures Reaches(start, s') && Requeued(s, s', AfterNack(m, s.maxRetries, now), failing)
  {
    if s.closing {
      s' := DoDrop(s, m, now);
      Extend(start, s, SRetry(0, now), s');
    } else {
      s' := PutBackOpen(start, s, m, now, failing);
    }
  }

  lemma PutBackOpen(start: State, s: State, m: Message, now: Instant, failing: set<Queue>) returns (s': State)
    requires Reaches(start, s) && s.tasks == map[0 := Requeueing(m)] && !s.closing && !s.closed && s.torn == {}
    ensures Reaches(start, s') && Requeued(s, s', AfterNack(m, s.maxRetries, now), failing)
  {
    var back := AfterNack(m, s.maxRetries, now);
    var s1 := DoRetry(s, m, now);
    Extend(start, s, SRetry(0, now), s1);
    if back.queue in failing {
      s' := ReturnFailing(start, s1, back, failing);
    } else {
      s' := ReturnWritten(start, s1, back, failing);
    }
  }

  lemma NackedAs(s: State, s1: State, s': State, id: MessageID, now: Instant, failing: set<Queue>)
    requires id in s.inFlight && Removed(s, s1, id, Requeue)
    requires Requeued(s1, s', AfterNack(s.inFlight[id].msg, s.maxRetries, now), failing)
    ensures View(s', failing) == NackedBy(View(s, failing), id, s.maxRetries, now)
  {
    CountsAfter(s.consumers, s.inFlight[id].consumer, -1);
  }

  /** A single negative outcome, in steps of the broker, has the effect of `Nack`. */
  lemma NackIsARun(start: State, s: State, id: MessageID, cause: Cause, now: Instant, failing: set<Queue>) returns (s': State)
    requires Reaches(start, s) && Quiet(s) && AfterOf(cause).Requeue? && (id in s.inFlight ==> Applies(cause, s.inFlight[id]))
    ensures Reaches(start, s') && Quiet(s') && s'.maxRetries == s.maxRetries
    ensures View(s', failing) == NackedBy(View(s, failing), id, s.maxRetries, now)
  {
    if id !in s.inFlight {
      s' := s;
    } else {
      var s1 := Remove(start, s, id, cause);
      s' := PutBack(start, s1, s.inFlight[id].msg, now, failing);
      NackedAs(s, s1, s', id, now, failing);
    }
  }

  /** The timeout scan is a run of the broker: one removal, decrement and return after the other. */
  lemma {:induction false} ScanIsARun(start: State, s: State, order: seq<MessageID>, threshold: Instant,
                                      clock: MessageID -> Instant, failing: set<Queue>) returns (s': State)
    requires Reaches(start, s) && Quiet(s) && Distinct(order)
    requires forall id :: id in order ==> id in s.inFlight && Applies(ByTimeout(threshold), s.inFlight[id])
    ensures Reaches(start, s') && Quiet(s') && s'.maxRetries == s.maxRetries
    ensures View(s', failing) == NackAll(View(s, failing), order, s.maxRetries, clock)
  {
    if order == [] {
      s' := s;
    } else {
      var init, last := order[..|order| - 1], order[|order| - 1];
      assert order == init + [last] && last !in init;
      var s1 := ScanIsARun(start, s, init, threshold, clock, failing);
      NackAllInFlight(View(s, failing), init, s.maxRetries, clock);
      assert last in s1.inFlight && s1.inFlight[last] == s.inFlight[last];
      s' := NackIsARun(start, s1, last, ByTimeout(threshold), clock(last), failing);
    }
  }

  // ---------------------------------------------------------------------------
  // Acknowledgements
  // ---------------------------------------------------------------------------

  /** What the tombstone leaves of the logs. */
  ghost predicate Entombed(s: State, s': State, m: Message, failing: set<Queue>) {
    && s' == s.(tasks := map[], logs := s'.logs, owner := s'.owner, buried := s'.buried)
    && Queues.Store(s'.topics, s'.logs, s'.closing, failing)
       == Queues.Entombed(Queues.Store(s.topics, s.logs, s.closing, failing), m.queue, m.id)
  }

  /** The rest of `Ack` after the decrement. */
  lemma PutAway(start: State, s: State, m: Message, failing: set<Queue>) returns (s': State)
    requires Reaches(start, s) && s.tasks == map[0 := Burying(m)] && !s.closed && s.torn == {}
    ensures Reaches(start, s') && Entombed(s, s', m, failing)
  {
    if m.queue in s.topics && m.queue !in failing {
      s' := DoBury(s, m);
      Extend(start, s, SWriteTombstone(0), s');
    } else {
      s' := DoFailWrite(s, m);
      Extend(start, s, SFailWrite(0), s');
    }
  }

  lemma AckedAs(s: State, s1: State, s': State, id: MessageID, failing: set<Queue>)
    requires id in s.inFlight && Removed(s, s1, id, Bury) && Entombed(s1, s', s.inFlight[id].msg, failing)
    ensures View(s', failing) == AckedBy(View(s, failing), id)
  {
    CountsAfter(s.consumers, s.inFlight[id].consumer, -1);
  }

  /** A single acknowledgement or expiry, in steps of the broker, has the effect of `Ack`. */
  lemma AckIsARun(start: State, s: State, id: MessageID, cause: Cause, failing: set<Queue>) returns (s': State)
    requires Reaches(start, s) && Quiet(s) && AfterOf(cause).Bury? && (id in s.inFlight ==> Applies(cause, s.inFlight[id]))
    ensures Reaches(start, s') && Quiet(s')
    ensures View(s', failing) == AckedBy(View(s, failing), id)
  {
    if id !in s.inFlight {
      s' := s;
    } else {
      var s1 := Remove(start, s, id, cause);
      s' := PutAway(start, s1, s.inFlight[id].msg, failing);
      AckedAs(s, s1, s', id, failing);
    }
  }

  /** The expiry of dead letters in flight is a run of the broker. */
  lemma {:induction false} ExpiryIsARun(start: State, s: State, order: seq<MessageID>, cutoff: Instant, failing: set<Queue>)
    returns (s': State)
    requires Reaches(start, s) && Quiet(s) && Distinct(order)
    requires forall id :: id in order ==> id in s.inFlight && Applies(ByExpiry(cutoff), s.inFlight[id])
    ensures Reaches(start, s') && Quiet(s')
    ensures View(s', failing) == AckAll(View(s, failing), order)
  {
    if order == [] {
      s' := s;
    } else {
      var init, last := order[..|order| - 1], order[|order| - 1];
      assert order == init + [last] && last !in init;
      var s1 := ExpiryIsARun(start, s, init, cutoff, failing);
      AckAllInFlight(View(s, failing), init);
      assert last in s1.inFlight && s1.inFlight[last] == s.inFlight[last];
      s' := AckIsARun(start, s1, last, ByExpiry(cutoff), failing);
    }
  }

  // ---------------------------------------------------------------------------
  // Cancellation while sending
  // ---------------------------------------------------------------------------

  lemma DoCancel(s: State, q: Queue, id: MessageID) returns (s': State)
    requires s.cancelled && q in s.hands && s.hands[q].Sending? && s.hands[q].msg.id == id && s.removals == map[]
    ensures Next(s, SCancelSend(q, 0)) == Some(s') && s'.hands == s.hands[q := Stopped]
    ensures s' == s.(hands := s'.hands, inFlight := s.inFlight - {id}, removals := s'.removals, owner := s'.owner, removed := s'.removed)
    ensures s'.removals == if id in s.inFlight then map[0 := Removal(s.inFlight[id], Drop)] else map[]
  {
    s' := CancelSend(s, q, 0).value;
    if id !in s.inFlight { assert s.inFlight - {id} == s.inFlight; }
  }

  lemma DoForget(s: State, e: Entry) returns (s': State)
    requires s.removals == map[0 := Removal(e, Drop)]
    ensures Next(s, SForget(0)) == Some(s')
    ensures s' == s.(removals := map[], consumers := AddToCount(s.consumers, e.consumer, -1), owner := s'.owner)
  {
    s' := Forget(s, 0).value;
    assert s'.removals == map[];
  }

  /** A dispatcher cancelled while sending has the effect of `Unregister`, and stops. */
  lemma UnregisterIsARun(start: State, s: State, q: Queue, failing: set<Queue>) returns (s': State)
    requires Reaches(start, s) && Quiet(s) && s.cancelled && q in s.hands && s.hands[q].Sending?
    ensures Reaches(start, s') && Quiet(s') && s'.hands == s.hands[q := Stopped]
    ensures View(s', failing) == Unregistered(View(s, failing), s.hands[q].msg.id)
  {
    var id := s.hands[q].msg.id;
    s' := DoCancel(s, q, id);
    Extend(start, s, SCancelSend(q, 0), s');
    if id in s.inFlight {
      var s1 := s';
      s' := DoForget(s1, s.inFlight[id]);
      Extend(start, s1, SForget(0), s');
      CountsAfter(s.consumers, s.inFlight[id].consumer, -1);
    }
  }
}
