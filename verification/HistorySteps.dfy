/** How each step that moves a message keeps its history. */
module HistorySteps {
  import opened Core
  import opened Log
  import opened Broker
  import opened Ownership
  import opened Durability
  import opened History

  /** What is known of the message a place holds. */
  lemma HeldFits(s: State, a: Place, m: Message)
    requires Settled(s) && Owned(s) && HoldsMsg(s, a, m)
    ensures Holds(s, a, m.id)
    ensures m.id in s.home ==> Fits(s, a, m) && m.id !in s.dups && m.id in s.owner && s.owner[m.id] == a
  {
    HoldsMsgHolds(s, a, m);
  }

  // ---------------------------------------------------------------------------
  // Publishing and writing the record
  // ---------------------------------------------------------------------------

  lemma NotLogged(s: State, q: Queue, id: MessageID)
    requires Durable(s) && id !in s.issued
    ensures Copies(Messages(LogOf(s, q)), id) == []
  {
    forall m | m in Messages(LogOf(s, q)) ensures m.id in s.issued {
      MessageIdsAreLogged(LogOf(s, q), m);
      var i :| 0 <= i < |LogOf(s, q)| && LogOf(s, q)[i].id == m.id;
      assert q in s.logs && s.logs[q][i].id == m.id;
      assert m.id in LoggedIds(s.logs);
    }
    CopiesNone(Messages(LogOf(s, q)), id);
  }

  lemma PublishForms(s: State, t: nat, m: Message, s': State)
    requires Formed(s) && Tracked(s) && Publish(s, t, m) == Some(s') && HoldersOwn(s') && s.dups <= s.issued
    ensures Formed(s')
  {
    FormedMove(s, s', m.id, AtTask(t));
  }

  lemma PublishCopies(s: State, t: nat, m: Message, s': State)
    requires CopiesExact(s) && Tracked(s) && Durable(s) && Publish(s, t, m) == Some(s')
    ensures CopiesExact(s')
  {
    forall id, q | id in s'.home && id in s'.writes && (q, id) !in s'.buried
      ensures Copies(Messages(LogOf(s', q)), id) == LandedOn(s', q, id)
    {
      assert LogOf(s', q) == LogOf(s, q);
      if id == m.id { NotLogged(s, q, id); }
    }
  }

  lemma PublishDeliveries(s: State, t: nat, m: Message, s': State)
    requires DeliveriesPaid(s) && Tracked(s) && s.dups <= s.issued && Publish(s, t, m) == Some(s')
    ensures DeliveriesPaid(s')
  {
    forall id, q | id in s'.home && id in s'.writes
      ensures s'.delivered[(q, id)] + One(Awaiting(s', id, q)) <= |Trail(s'.home[id], s'.writes[id], q, s'.maxRetries)|
    {
      if id == m.id {
        assert (q, id) !in s.delivered && !Awaiting(s', id, q);
      } else {
        assert Awaiting(s', id, q) ==> Awaiting(s, id, q);
      }
    }
  }

  lemma PublishTracked(s: State, t: nat, m: Message, s': State)
    requires Tracked(s) && s.dups <= s.issued && Publish(s, t, m) == Some(s')
    ensures Tracked(s')
  {
  }

  lemma SettledPublish(s: State, t: nat, m: Message, s': State)
    requires Settled(s) && Owned(s) && Durable(s) && Publish(s, t, m) == Some(s') && HoldersOwn(s')
    ensures Settled(s')
  {
    PublishForms(s, t, m, s');
    PublishCopies(s, t, m, s');
    PublishDeliveries(s, t, m, s');
    PublishTracked(s, t, m, s');
  }

  /** The record of task `t` was written, landed or not. */
  ghost predicate Wrote(s: State, t: nat, s': State) {
    IsReady(s, t) && var m := s.tasks[t].msg;
    s' == s.(tasks := s.tasks[t := Logged(m)], owner := Moved(s, m.id, AtTask(t)),
             writes := s.writes[m.id := WritesOf(s, m.id) + 1],
             logs := s'.logs, landed := s'.landed, swallowed := s'.swallowed)
    && (s'.swallowed == s.swallowed || s'.swallowed == s.swallowed + {(m.id, WritesOf(s, m.id))})
  }

  lemma WriteForms(s: State, t: nat, s': State)
    requires Settled(s) && Owned(s) && Wrote(s, t, s') && HoldersOwn(s')
    ensures Formed(s')
  {
    var m := s.tasks[t].msg;
    HeldFits(s, AtTask(t), m);
    FormedMove(s, s', m.id, AtTask(t));
  }

  /** The new record pays for the delivery that the message now awaits. */
  lemma WriteDeliveries(s: State, t: nat, s': State)
    requires Settled(s) && Owned(s) && Wrote(s, t, s')
    ensures DeliveriesPaid(s')
  {
    var m := s.tasks[t].msg;
    HeldFits(s, AtTask(t), m);
    forall id, q | id in s'.home && id in s'.writes
      ensures s'.delivered[(q, id)] + One(Awaiting(s', id, q)) <= |Trail(s'.home[id], s'.writes[id], q, s'.maxRetries)|
    {
      assert s.delivered[(q, id)] + One(Awaiting(s, id, q)) <= |Trail(s.home[id], s.writes[id], q, s.maxRetries)|;
    }
  }

  lemma LandedLog(s: State, t: nat, s': State, q: Queue)
    requires t in s.tasks && s' == LandRecord(s, t)
    ensures var m := s.tasks[t].msg;
      Messages(LogOf(s', q)) == if q == m.queue then Messages(LogOf(s, q)) + [Stored(m)] else Messages(LogOf(s, q))
  {
    MessagesAppend(LogOf(s, s.tasks[t].msg.queue), Put(s.tasks[t].msg));
  }

  lemma LandCopiesHere(s: State, t: nat, s': State, id: MessageID, q: Queue)
    requires IsReady(s, t) && s' == LandRecord(s, t) && CopiesExact(s) && Tracked(s)
    requires s.tasks[t].msg.id in s.home ==> Fits(s, AtTask(t), s.tasks[t].msg)
    requires id in s.home && id in s.writes && (q, id) !in s.buried
    ensures Copies(Messages(LogOf(s', q)), id) == LandedOn(s', q, id)
  {
    LandedLog(s, t, s', q);
    CopiesAppend(Messages(LogOf(s, q)), Stored(s.tasks[t].msg), id);
    assert Copies(Messages(LogOf(s, q)), id) == LandedOn(s, q, id);
    assert (id, s.writes[id]) !in s.swallowed;
  }

  lemma LandCopies(s: State, t: nat, s': State)
    requires Settled(s) && Owned(s) && IsReady(s, t) && s' == LandRecord(s, t)
    ensures CopiesExact(s')
  {
    HeldFits(s, AtTask(t), s.tasks[t].msg);
    forall id, q | id in s'.home && id in s'.writes && (q, id) !in s'.buried
      ensures Copies(Messages(LogOf(s', q)), id) == LandedOn(s', q, id)
    {
      LandCopiesHere(s, t, s', id, q);
    }
  }

  lemma SwallowCopiesHere(s: State, t: nat, s': State, id: MessageID, q: Queue)
    requires IsReady(s, t) && s' == SwallowRecord(s, t) && CopiesExact(s) && Tracked(s)
    requires id in s.home && id in s.writes && (q, id) !in s.buried
    ensures Copies(Messages(LogOf(s', q)), id) == LandedOn(s', q, id)
  {
    assert Copies(Messages(LogOf(s, q)), id) == LandedOn(s, q, id);
    LandedTrailSame(s.home[id], s.writes[id], q, s.maxRetries, id, s.swallowed, s'.swallowed);
  }

  /** Behind a torn tail the log stays as it is, and the number of the write is noted as lost. */
  lemma SwallowCopies(s: State, t: nat, s': State)
    requires Settled(s) && IsReady(s, t) && s' == SwallowRecord(s, t)
    ensures CopiesExact(s')
  {
    forall id, q | id in s'.home && id in s'.writes && (q, id) !in s'.buried
      ensures Copies(Messages(LogOf(s', q)), id) == LandedOn(s', q, id)
    {
      SwallowCopiesHere(s, t, s', id, q);
    }
  }

  lemma TrackedWrote(s: State, t: nat, s': State)
    requires Tracked(s) && Wrote(s, t, s') && s.tasks[t].msg.id in s.issued
    requires s.tasks[t].msg.id in s.home ==> s.tasks[t].msg.id !in s.dups
    ensures Tracked(s')
  {
  }

  lemma SettledWrote(s: State, t: nat, s': State)
    requires Settled(s) && Owned(s) && Wrote(s, t, s') && HoldersOwn(s') && CopiesExact(s')
    ensures Settled(s')
  {
    WriteForms(s, t, s');
    WriteDeliveries(s, t, s');
    HeldFits(s, AtTask(t), s.tasks[t].msg);
    TrackedWrote(s, t, s');
  }

  // ---------------------------------------------------------------------------
  // Moving without writing
  // ---------------------------------------------------------------------------

  /** A new empty topic changes nothing. */
  lemma HistoricNewTopic(s: State, q: Queue, s': State)
    requires Historic(s) && q !in s.topics && s' == WithTopic(s, q, [])
    ensures Historic(s')
  {
    HistoricFrame(s, s');
  }

  lemma ReadyForms(s: State, t: nat, s': State)
    requires Settled(s) && Owned(s) && t in s.tasks && s.tasks[t].Checked? && s' == WithTask(s, t, Ready(s.tasks[t].msg)) && HoldersOwn(s')
    ensures Formed(s')
  {
    HeldFits(s, AtTask(t), s.tasks[t].msg);
    FormedMove(s, s', s.tasks[t].msg.id, AtTask(t));
  }

  lemma SettledReady(s: State, t: nat, s': State)
    requires Settled(s) && Owned(s) && t in s.tasks && s.tasks[t].Checked? && s' == WithTask(s, t, Ready(s.tasks[t].msg)) && HoldersOwn(s')
    ensures Settled(s')
  {
    ReadyForms(s, t, s');
    HeldFits(s, AtTask(t), s.tasks[t].msg);
    SettledMove(s, s', s.tasks[t].msg.id, AtTask(t), AtTask(t));
  }

  lemma TaskEndForms(s: State, t: nat, s': State)
    requires Settled(s) && Owned(s) && t in s.tasks && s' == WithoutTask(s, t, Gone).(torn := s'.torn) && HoldersOwn(s')
    ensures Formed(s')
  {
    HeldFits(s, AtTask(t), s.tasks[t].msg);
    FormedMove(s, s', s.tasks[t].msg.id, Gone);
  }

  lemma SettledTaskEnd(s: State, t: nat, s': State)
    requires Settled(s) && Owned(s) && t in s.tasks && s' == WithoutTask(s, t, Gone).(torn := s'.torn) && HoldersOwn(s')
    ensures Settled(s')
  {
    TaskEndForms(s, t, s');
    HeldFits(s, AtTask(t), s.tasks[t].msg);
    SettledMove(s, s', s.tasks[t].msg.id, AtTask(t), Gone);
  }

  lemma RetryForms(s: State, t: nat, now: Instant, s': State)
    requires Settled(s) && Owned(s) && Retry(s, t, now) == Some(s') && !s.closing && HoldersOwn(s')
    ensures Formed(s')
  {
    HeldFits(s, AtTask(t), s.tasks[t].msg);
    var m := s.tasks[t].msg;
    if m.id in s.home { NackAdvancesForm(m, s.home[m.id], s.writes[m.id] - 1, s.maxRetries, now); }
    FormedMove(s, s', s.tasks[t].msg.id, AtTask(t));
  }

  lemma SettledRetry(s: State, t: nat, now: Instant, s': State)
    requires Settled(s) && Owned(s) && Retry(s, t, now) == Some(s') && !s.closing && HoldersOwn(s')
    ensures Settled(s')
  {
    RetryForms(s, t, now, s');
    HeldFits(s, AtTask(t), s.tasks[t].msg);
    SettledMove(s, s', s.tasks[t].msg.id, AtTask(t), AtTask(t));
  }

  lemma EnteredOnce(s: State, t: nat, s': State)
    requires HoldersOwn(s) && EnterTopic(s, t) == Some(s')
    ensures var m := s.tasks[t].msg;
      forall n :: HoldsMsg(s', AtTopic(m.queue), n) && n.id == m.id && m.id !in s.dups ==> n == m
  {
    var m := s.tasks[t].msg;
    assert Holds(s, AtTask(t), m.id);
    assert m.id !in s.dups ==> !Holds(s, AtTopic(m.queue), m.id);
  }

  lemma EnterTopicForms(s: State, t: nat, s': State)
    requires Settled(s) && Owned(s) && EnterTopic(s, t) == Some(s') && HoldersOwn(s')
    ensures Formed(s')
  {
    HeldFits(s, AtTask(t), s.tasks[t].msg);
    EnteredOnce(s, t, s');
    FormedMove(s, s', s.tasks[t].msg.id, AtTopic(s.tasks[t].msg.queue));
  }

  lemma SettledEnterTopic(s: State, t: nat, s': State)
    requires Settled(s) && Owned(s) && EnterTopic(s, t) == Some(s') && HoldersOwn(s')
    ensures Settled(s')
  {
    EnterTopicForms(s, t, s');
    HeldFits(s, AtTask(t), s.tasks[t].msg);
    SettledMove(s, s', s.tasks[t].msg.id, AtTask(t), AtTopic(s.tasks[t].msg.queue));
  }

  lemma DequeueForms(s: State, q: Queue, s': State)
    requires Settled(s) && Owned(s) && Dequeue(s, q) == Some(s') && HoldersOwn(s')
    ensures Formed(s')
  {
    HeldFits(s, AtTopic(q), TopicOf(s, q)[0]);
    FormedMove(s, s', TopicOf(s, q)[0].id, AtHand(q));
  }

  lemma SettledDequeue(s: State, q: Queue, s': State)
    requires Settled(s) && Owned(s) && Dequeue(s, q) == Some(s') && HoldersOwn(s')
    ensures Settled(s')
  {
    DequeueForms(s, q, s');
    HeldFits(s, AtTopic(q), TopicOf(s, q)[0]);
    SettledMove(s, s', TopicOf(s, q)[0].id, AtTopic(q), AtHand(q));
  }

  lemma ExpirePendingForms(s: State, q: Queue, i: nat, cutoff: Instant, t: nat, s': State)
    requires Settled(s) && Owned(s) && ExpirePending(s, q, i, cutoff, t) == Some(s') && HoldersOwn(s')
    ensures Formed(s')
  {
    HeldFits(s, AtTopic(q), TopicOf(s, q)[i]);
    FormedMove(s, s', TopicOf(s, q)[i].id, AtTask(t));
  }

  lemma SettledExpirePending(s: State, q: Queue, i: nat, cutoff: Instant, t: nat, s': State)
    requires Settled(s) && Owned(s) && ExpirePending(s, q, i, cutoff, t) == Some(s') && HoldersOwn(s')
    ensures Settled(s')
  {
    ExpirePendingForms(s, q, i, cutoff, t, s');
    HeldFits(s, AtTopic(q), TopicOf(s, q)[i]);
    SettledMove(s, s', TopicOf(s, q)[i].id, AtTopic(q), AtTask(t));
  }

  lemma AbandonForms(s: State, q: Queue, s': State)
    requires Settled(s) && Owned(s) && Abandon(s, q) == Some(s') && HoldersOwn(s')
    ensures Formed(s')
  {
    HeldFits(s, AtHand(q), s.hands[q].msg);
    FormedMove(s, s', s.hands[q].msg.id, Gone);
  }

  lemma SettledAbandon(s: State, q: Queue, s': State)
    requires Settled(s) && Owned(s) && Abandon(s, q) == Some(s') && HoldersOwn(s')
    ensures Settled(s')
  {
    AbandonForms(s, q, s');
    HeldFits(s, AtHand(q), s.hands[q].msg);
    SettledMove(s, s', s.hands[q].msg.id, AtHand(q), Gone);
  }

  lemma TakenHolds(s: State, id: MessageID, r: nat, after: After, s': State)
    requires FlightKeyed(s) && id in s.inFlight && r !in s.removals && s' == Taken(s, id, r, after)
    ensures forall p, m :: HoldsMsg(s', p, m) && m.id != id ==> HoldsMsg(s, p, m) && (Ahead(s', p) <==> Ahead(s, p))
  {
  }

  lemma TakenFits(s: State, id: MessageID, r: nat, after: After, s': State)
    requires id in s.inFlight && r !in s.removals && s' == Taken(s, id, r, after) && Fits(s, AtFlight, s.inFlight[id].msg)
    ensures forall m :: HoldsMsg(s', AtRemoval(r), m) ==> Fits(s', AtRemoval(r), m)
  {
  }

  lemma TakenForms(s: State, id: MessageID, r: nat, after: After, s': State)
    requires Settled(s) && Owned(s) && id in s.inFlight && r !in s.removals && s' == Taken(s, id, r, after) && HoldersOwn(s')
    ensures Formed(s')
  {
    HeldFits(s, AtFlight, s.inFlight[id].msg);
    TakenHolds(s, id, r, after, s');
    if id in s.home { TakenFits(s, id, r, after, s'); }
    FormedMove(s, s', id, AtRemoval(r));
  }

  lemma SettledTaken(s: State, id: MessageID, r: nat, after: After, s': State)
    requires Settled(s) && Owned(s) && id in s.inFlight && r !in s.removals && s' == Taken(s, id, r, after) && HoldersOwn(s')
    ensures Settled(s')
  {
    TakenForms(s, id, r, after, s');
    HeldFits(s, AtFlight, s.inFlight[id].msg);
    SettledMove(s, s', s.inFlight[id].msg.id, AtFlight, AtRemoval(r));
  }

  lemma DecrementForms(s: State, r: nat, t: nat, s': State)
    requires Settled(s) && Owned(s) && Decrement(s, r, t) == Some(s') && HoldersOwn(s')
    ensures Formed(s')
  {
    HeldFits(s, AtRemoval(r), s.removals[r].entry.msg);
    FormedMove(s, s', s.removals[r].entry.msg.id, AtTask(t));
  }

  lemma SettledDecrement(s: State, r: nat, t: nat, s': State)
    requires Settled(s) && Owned(s) && Decrement(s, r, t) == Some(s') && HoldersOwn(s')
    ensures Settled(s')
  {
    DecrementForms(s, r, t, s');
    HeldFits(s, AtRemoval(r), s.removals[r].entry.msg);
    SettledMove(s, s', s.removals[r].entry.msg.id, AtRemoval(r), AtTask(t));
  }

  lemma ForgetForms(s: State, r: nat, s': State)
    requires Settled(s) && Owned(s) && Forget(s, r) == Some(s') && HoldersOwn(s')
    ensures Formed(s')
  {
    HeldFits(s, AtRemoval(r), s.removals[r].entry.msg);
    FormedMove(s, s', s.removals[r].entry.msg.id, Gone);
  }

  lemma SettledForget(s: State, r: nat, s': State)
    requires Settled(s) && Owned(s) && Forget(s, r) == Some(s') && HoldersOwn(s')
    ensures Settled(s')
  {
    ForgetForms(s, r, s');
    HeldFits(s, AtRemoval(r), s.removals[r].entry.msg);
    SettledMove(s, s', s.removals[r].entry.msg.id, AtRemoval(r), Gone);
  }

  // ---------------------------------------------------------------------------
  // Delivery, tombstone and compaction
  // ---------------------------------------------------------------------------

  lemma RegisterForms(s: State, q: Queue, now: Instant, s': State)
    requires Settled(s) && Owned(s) && Register(s, q, now) == Some(s') && HoldersOwn(s')
    ensures Formed(s')
  {
    HeldFits(s, AtHand(q), s.hands[q].msg);
    FormedMove(s, s', s.hands[q].msg.id, AtFlight);
  }

  lemma RegisterDeliveries(s: State, q: Queue, now: Instant, s': State)
    requires Settled(s) && Owned(s) && HandsRouted(s.hands) && Register(s, q, now) == Some(s')
    ensures DeliveriesPaid(s')
  {
    var x := s.hands[q].msg.id;
    HeldFits(s, AtHand(q), s.hands[q].msg);
    forall id, p | id in s'.home && id in s'.writes
      ensures s'.delivered[(p, id)] + One(Awaiting(s', id, p)) <= |Trail(s'.home[id], s'.writes[id], p, s'.maxRetries)|
    {
      assert s.delivered[(p, id)] + One(Awaiting(s, id, p)) <= |Trail(s.home[id], s.writes[id], p, s.maxRetries)|;
      if id == x { assert Awaiting(s, id, q); }
    }
  }

  lemma SettledRegister(s: State, q: Queue, now: Instant, s': State)
    requires Settled(s) && Owned(s) && HandsRouted(s.hands) && Register(s, q, now) == Some(s') && HoldersOwn(s')
    ensures Settled(s')
  {
    RegisterForms(s, q, now, s');
    RegisterDeliveries(s, q, now, s');
    CopiesFrame(s, s');
    HeldFits(s, AtHand(q), s.hands[q].msg);
  }

  lemma RegisterOutcomes(s: State, q: Queue, now: Instant, s': State)
    requires OutcomesMatch(s) && Register(s, q, now) == Some(s')
    requires s.hands[q].msg.id in s.inFlight ==> s.hands[q].msg.id in s.dups
    ensures OutcomesMatch(s')
  {
    forall p, id
      ensures s'.removed[(p, id)] + One(Outstanding(s', p, id)) <= s'.delivered[(p, id)]
      ensures id !in s'.dups ==> s'.removed[(p, id)] + One(Outstanding(s', p, id)) == s'.delivered[(p, id)]
    {
      assert s.removed[(p, id)] + One(Outstanding(s, p, id)) <= s.delivered[(p, id)];
    }
  }

  lemma TakenOutcomes(s: State, id: MessageID, r: nat, after: After)
    requires OutcomesMatch(s) && id in s.inFlight
    ensures OutcomesMatch(Taken(s, id, r, after))
  {
    var s' := Taken(s, id, r, after);
    forall p, x
      ensures s'.removed[(p, x)] + One(Outstanding(s', p, x)) <= s'.delivered[(p, x)]
      ensures x !in s'.dups ==> s'.removed[(p, x)] + One(Outstanding(s', p, x)) == s'.delivered[(p, x)]
    {
      assert s.removed[(p, x)] + One(Outstanding(s, p, x)) <= s.delivered[(p, x)];
    }
  }

  lemma LandTombstoneCopies(s: State, t: nat, s': State)
    requires CopiesExact(s) && t in s.tasks && s' == LandTombstone(s, t)
    ensures CopiesExact(s')
  {
    var m := s.tasks[t].msg;
    forall q ensures Messages(LogOf(s', q)) == Messages(LogOf(s, q)) {
      if q == m.queue { TombstoneAddsNoMessage(LogOf(s, q), m.id); }
    }
    forall id, q | id in s'.home && id in s'.writes && (q, id) !in s'.buried
      ensures Copies(Messages(LogOf(s', q)), id) == LandedOn(s', q, id)
    {
      assert (q, id) !in s.buried;
    }
  }

  lemma LandTombstoneForms(s: State, t: nat, s': State)
    requires Settled(s) && Owned(s) && IsBurying(s, t) && s' == LandTombstone(s, t) && HoldersOwn(s')
    ensures Formed(s')
  {
    HeldFits(s, AtTask(t), s.tasks[t].msg);
    FormedMove(s, s', s.tasks[t].msg.id, Gone);
  }

  lemma SettledLandTombstone(s: State, t: nat, s': State)
    requires Settled(s) && Owned(s) && IsBurying(s, t) && s' == LandTombstone(s, t) && HoldersOwn(s')
    ensures Settled(s')
  {
    HeldFits(s, AtTask(t), s.tasks[t].msg);
    LandTombstoneForms(s, t, s');
    LandTombstoneCopies(s, t, s');
    DeliveriesFrame(s, s');
  }

  /** Compaction keeps every copy of every message without a tombstone. */
  lemma CompactCopies(s: State, p: Queue, s': State)
    requires CopiesExact(s) && TombstonesBuried(s) && CompactLog(s, p) == Some(s')
    ensures CopiesExact(s')
  {
    MessagesOfCompacted(LogOf(s, p));
    forall id, q | id in s'.home && id in s'.writes && (q, id) !in s'.buried
      ensures Copies(Messages(LogOf(s', q)), id) == LandedOn(s', q, id)
    {
      if q == p {
        CopiesWithout(Messages(LogOf(s, p)), Tombstoned(LogOf(s, p)), id);
      } else {
        assert LogOf(s', q) == LogOf(s, q);
      }
    }
  }

  lemma HistoricCompact(s: State, p: Queue, s': State)
    requires Historic(s) && TombstonesBuried(s) && CompactLog(s, p) == Some(s')
    ensures Historic(s')
  {
    CompactCopies(s, p, s');
    FormedFrame(s, s');
    DeliveriesFrame(s, s');
    OutcomesFrame(s, s');
  }
}
