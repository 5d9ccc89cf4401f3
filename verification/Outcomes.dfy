/**
 What a replay owes a message published in the session: exactly what was written to a clean log and not tombstoned in
 one. From it follow the log-first rule, the exact copies in every log, and what becomes of dead letters.
 */
module Outcomes {
  import opened Core
  import opened Wire
  import opened Log
  import opened Broker
  import opened Ownership
  import opened Durability
  import opened History
  import opened HistorySteps
  import opened Safety
  import opened Theorems

  ghost predicate Owed(s: State, q: Queue, id: MessageID) { (q, id) in s.landed && (q, id) !in s.buried }

  /** Of the messages published in this session, logs replay none that is not owed. */
  ghost predicate OnlyOwed(s: State) {
    forall q, id :: id in s.home && id in Ids(Live(LogOf(s, q))) ==> Owed(s, q, id)
  }

  /** Whatever a log replays, of this session or an earlier one, was written to it while it was clean. */
  ghost predicate LiveLanded(s: State) { forall q, id :: id in Ids(Live(LogOf(s, q))) ==> (q, id) in s.landed }

  /** The queue of the last record written for the message. */
  ghost function LastQueue(s: State, id: MessageID): Queue
    requires id in s.home && id in s.writes && s.writes[id] > 0
  {
    QueueAfter(s.home[id], s.writes[id] - 1, s.maxRetries)
  }

  /** A message is tombstoned only on the last queue it was written to. */
  ghost predicate BuriedLast(s: State) {
    forall q, id :: id in s.home && (q, id) in s.buried ==> id in s.writes && s.writes[id] > 0 && q == LastQueue(s, id)
  }

  lemma LiveIdsAfterPut(recs: seq<Record>, m: Message, id: MessageID)
    requires id in Ids(Live(recs + [Put(m)])) && id != m.id
    ensures id in Ids(Live(recs))
  {
    MessagesAppend(recs, Put(m));
    TombstonedAppend(recs, Put(m));
    WithoutAppend(Messages(recs), MessageOf(Put(m)), Tombstoned(recs));
  }

  lemma LiveIdsAfterTombstone(recs: seq<Record>, x: MessageID, id: MessageID)
    requires id in Ids(Live(recs + [Tombstone(x)]))
    ensures id in Ids(Live(recs)) && id != x
  {
    var longer := recs + [Tombstone(x)];
    TombstoneAddsNoMessage(recs, x);
    TombstonedAppend(recs, Tombstone(x));
    WithoutMembers(Messages(recs), Tombstoned(recs));
    WithoutMembers(Messages(longer), Tombstoned(longer));
    var m :| m in Live(longer) && m.id == id;
    assert m in Live(recs);
  }

  lemma OwedLandRecord(s: State, t: nat, s': State)
    requires Good(s) && OnlyOwed(s) && IsReady(s, t) && s' == LandRecord(s, t)
    ensures OnlyOwed(s')
  {
    var m := s.tasks[t].msg;
    HeldFits(s, AtTask(t), m);
    forall q, id | id in s'.home && id in Ids(Live(LogOf(s', q))) ensures Owed(s', q, id) {
      if q == m.queue && id != m.id {
        LiveIdsAfterPut(LogOf(s, q), m, id);
      }
      if q != m.queue || id != m.id {
        assert Owed(s, q, id);
      }
    }
  }

  lemma OwedSwallowRecord(s: State, t: nat, s': State)
    requires OnlyOwed(s) && t in s.tasks && s' == SwallowRecord(s, t)
    ensures OnlyOwed(s')
  {
    forall q, id | id in s'.home && id in Ids(Live(LogOf(s', q))) ensures Owed(s', q, id) {
      assert Owed(s, q, id);
    }
  }

  lemma OwedLandTombstone(s: State, t: nat, s': State)
    requires OnlyOwed(s) && t in s.tasks && s' == LandTombstone(s, t)
    ensures OnlyOwed(s')
  {
    var m := s.tasks[t].msg;
    forall q, id | id in s'.home && id in Ids(Live(LogOf(s', q))) ensures Owed(s', q, id) {
      if q == m.queue { LiveIdsAfterTombstone(LogOf(s, q), m.id, id); }
      assert Owed(s, q, id);
    }
  }

  lemma OwedCompact(s: State, p: Queue, s': State)
    requires OnlyOwed(s) && CompactLog(s, p) == Some(s')
    ensures OnlyOwed(s')
  {
    CompactionPreservesLive(LogOf(s, p));
    forall q, id | id in s'.home && id in Ids(Live(LogOf(s', q))) ensures Owed(s', q, id) {
      assert Live(LogOf(s', q)) == Live(LogOf(s, q));
      assert Owed(s, q, id);
    }
  }

  lemma LiveIdsIssued(s: State, q: Queue, id: MessageID)
    requires IdsIssued(s) && id in Ids(Live(LogOf(s, q)))
    ensures id in s.issued
  {
    var m :| m in Live(LogOf(s, q)) && m.id == id;
    LiveIdsAreLogged(LogOf(s, q), m);
    var i :| 0 <= i < |LogOf(s, q)| && LogOf(s, q)[i].id == id;
    assert q in s.logs && s.logs[q][i].id == id;
    assert id in LoggedIds(s.logs);
  }

  lemma OwedFrame(s: State, s': State)
    requires IdsIssued(s) && OnlyOwed(s) && SameLogs(s, s')
    ensures OnlyOwed(s')
  {
    forall q, id | id in s'.home && id in Ids(Live(LogOf(s', q))) ensures Owed(s', q, id) {
      assert LogOf(s', q) == LogOf(s, q);
      LiveIdsIssued(s, q, id);
      assert Owed(s, q, id);
    }
  }

  /** The writer's message is in memory, so it has no tombstone yet. */
  lemma LastWrote(s: State, t: nat, s': State)
    requires Settled(s) && Owned(s) && BuriedLast(s) && Wrote(s, t, s') && s'.buried == s.buried
    ensures BuriedLast(s')
  {
    HeldFits(s, AtTask(t), s.tasks[t].msg);
    forall q, id | id in s'.home && (q, id) in s'.buried
      ensures id in s'.writes && s'.writes[id] > 0 && q == LastQueue(s', id)
    {
      assert id in s.home && (q, id) in s.buried;
    }
  }

  lemma LastLandTombstone(s: State, t: nat, s': State)
    requires Settled(s) && Owned(s) && BuriedLast(s) && IsBurying(s, t) && s' == LandTombstone(s, t)
    ensures BuriedLast(s')
  {
    HeldFits(s, AtTask(t), s.tasks[t].msg);
    forall q, id | id in s'.home && (q, id) in s'.buried
      ensures id in s'.writes && s'.writes[id] > 0 && q == LastQueue(s', id)
    {
      if (q, id) in s.buried { assert id in s.home; }
    }
  }

  lemma LastFrame(s: State, s': State)
    requires IdsIssued(s) && BuriedLast(s) && SameLogs(s, s')
    ensures BuriedLast(s')
  {
    forall q, id | id in s'.home && (q, id) in s'.buried
      ensures id in s'.writes && s'.writes[id] > 0 && q == LastQueue(s', id)
    {
      assert id in s.issued && SameStory(s, s', id);
    }
  }

  // ---------------------------------------------------------------------------
  // Of every session
  // ---------------------------------------------------------------------------

  lemma LandedFrame(s: State, s': State)
    requires LiveLanded(s) && s'.landed == s.landed && forall q :: Live(LogOf(s', q)) == Live(LogOf(s, q))
    ensures LiveLanded(s')
  {
  }

  lemma LandedLandRecord(s: State, t: nat, s': State)
    requires LiveLanded(s) && t in s.tasks && s' == LandRecord(s, t)
    ensures LiveLanded(s')
  {
    var m := s.tasks[t].msg;
    forall q, id | id in Ids(Live(LogOf(s', q))) ensures (q, id) in s'.landed {
      if q == m.queue && id != m.id { LiveIdsAfterPut(LogOf(s, q), m, id); }
    }
  }

  lemma LandedLandTombstone(s: State, t: nat, s': State)
    requires LiveLanded(s) && t in s.tasks && s' == LandTombstone(s, t)
    ensures LiveLanded(s')
  {
    var m := s.tasks[t].msg;
    forall q, id | id in Ids(Live(LogOf(s', q))) ensures (q, id) in s'.landed {
      if q == m.queue { LiveIdsAfterTombstone(LogOf(s, q), m.id, id); }
    }
  }

  lemma LandedCompact(s: State, p: Queue, s': State)
    requires LiveLanded(s) && CompactLog(s, p) == Some(s')
    ensures LiveLanded(s')
  {
    CompactionPreservesLive(LogOf(s, p));
    LandedFrame(s, s');
  }

  lemma LandedInitial(s: State)
    requires Initial(s)
    ensures LiveLanded(s)
  {
    forall q, id | id in Ids(Live(LogOf(s, q))) ensures (q, id) in s.landed {
      var m :| m in Live(LogOf(s, q)) && m.id == id;
      WithoutMembers(Messages(LogOf(s, q)), Tombstoned(LogOf(s, q)));
      var i := PutOfMessage(LogOf(s, q), m);
      assert (q, id) in PutPairs(s.logs);
    }
  }

  lemma {:induction false} PutOfMessage(recs: seq<Record>, m: Message) returns (i: nat)
    requires m in Messages(recs)
    ensures i < |recs| && IsPut(recs[i]) && recs[i].id == m.id
  {
    var init, last := recs[..|recs| - 1], recs[|recs| - 1];
    if IsPut(last) && m == MessageOf(last) {
      i := |recs| - 1;
    } else {
      i := PutOfMessage(init, m);
    }
  }

  ghost predicate Exact(s: State) { OnlyOwed(s) && BuriedLast(s) && LiveLanded(s) }

  lemma ExactLandRecord(s: State, t: nat, s': State)
    requires Good(s) && Exact(s) && IsReady(s, t) && s' == LandRecord(s, t)
    ensures Exact(s')
  {
    LastWrote(s, t, s');
    OwedLandRecord(s, t, s');
    LandedLandRecord(s, t, s');
  }

  lemma ExactSwallowRecord(s: State, t: nat, s': State)
    requires Good(s) && Exact(s) && IsReady(s, t) && s' == SwallowRecord(s, t)
    ensures Exact(s')
  {
    LastWrote(s, t, s');
    OwedSwallowRecord(s, t, s');
    LandedFrame(s, s');
  }

  lemma ExactWrite(s: State, t: nat, s': State)
    requires Good(s) && Exact(s) && WriteRecord(s, t) == Some(s')
    ensures Exact(s')
  {
    if s.tasks[t].msg.queue in s.torn { ExactSwallowRecord(s, t, s'); } else { ExactLandRecord(s, t, s'); }
  }

  lemma ExactFrame(s: State, s': State)
    requires IdsIssued(s) && Exact(s) && SameLogs(s, s')
    ensures Exact(s')
  {
    OwedFrame(s, s');
    LastFrame(s, s');
    LandedFrame(s, s');
  }

  lemma ExactCompact(s: State, q: Queue, s': State)
    requires Exact(s) && CompactLog(s, q) == Some(s')
    ensures Exact(s')
  {
    OwedCompact(s, q, s');
    LandedCompact(s, q, s');
  }

  lemma ExactTombstone(s: State, t: nat, s': State)
    requires Good(s) && Exact(s) && WriteTombstone(s, t) == Some(s')
    ensures Exact(s')
  {
    if s.tasks[t].msg.queue in s.torn {
      ExactFrame(s, s');
    } else {
      OwedLandTombstone(s, t, s');
      LastLandTombstone(s, t, s');
      LandedLandTombstone(s, t, s');
    }
  }

  lemma ExactLogStep(s: State, step: Step, s': State)
    requires Good(s) && Exact(s) && IsLogStep(step) && LogNext(s, step) == Some(s')
    ensures Exact(s')
  {
    if step.SWriteRecord? {
      ExactWrite(s, step.t, s');
    } else if step.SWriteTombstone? {
      ExactTombstone(s, step.t, s');
    } else if step.SCompactLog? {
      ExactCompact(s, step.q, s');
    } else {
      LandedFrame(s, s');
    }
  }

  lemma ExactStep(s: State, step: Step, s': State)
    requires Good(s) && Exact(s) && Next(s, step) == Some(s')
    ensures Exact(s')
  {
    if IsLogStep(step) {
      ExactLogStep(s, step, s');
    } else {
      StepFrame(s, step, s');
      ExactFrame(s, s');
    }
  }

  lemma {:induction false} ReachableIsExact(start: State, steps: seq<Step>, s: State)
    requires Reachable(s, start, steps)
    ensures Good(s) && Exact(s)
  {
    ReachableIsGood(start, steps, s);
    if steps == [] {
      LandedInitial(s);
    } else {
      var init, last := steps[..|steps| - 1], steps[|steps| - 1];
      var before := Run(start, init).value;
      ReachableIsExact(start, init, before);
      ExactStep(before, last, s);
    }
  }

  // ---------------------------------------------------------------------------
  // What a replay returns
  // ---------------------------------------------------------------------------

  /**
   For every message published in this session and every queue, a replay returns the message if and only if a record of
   it was written there while the log was clean and no tombstone was, whatever was compacted in between.
   */
  lemma ReplayedExactly(start: State, steps: seq<Step>, s: State, q: Queue, id: MessageID)
    requires Reachable(s, start, steps) && id in s.home
    ensures id in Ids(Live(LogOf(s, q))) <==> (q, id) in s.landed && (q, id) !in s.buried
  {
    ReachableIsExact(start, steps, s);
    if Owed(s, q, id) { DurableRun(start, steps, s, q, id); }
  }

  /** For every ID, of whatever session: what a replay returns was written to that queue while its log was clean. */
  lemma ReplayedHasLanded(start: State, steps: seq<Step>, s: State, q: Queue, id: MessageID)
    requires Reachable(s, start, steps) && id in Ids(Live(LogOf(s, q)))
    ensures (q, id) in s.landed
  {
    ReachableIsExact(start, steps, s);
  }

  lemma BuriedCopies(s: State, q: Queue, id: MessageID)
    requires OnlyOwed(s) && id in s.home && (q, id) in s.buried
    ensures Copies(Live(LogOf(s, q)), id) == []
  {
    CopiesNone(Live(LogOf(s, q)), id);
  }

  lemma UnburiedCopies(s: State, q: Queue, id: MessageID)
    requires CopiesExact(s) && TombstonesBuried(s) && id in s.home && id in s.writes && (q, id) !in s.buried
    ensures Copies(Live(LogOf(s, q)), id) == LandedOn(s, q, id)
  {
    CopiesWithout(Messages(LogOf(s, q)), Tombstoned(LogOf(s, q)), id);
  }

  /** The copies on `q` are what landed of the trail of the message there, until its tombstone. */
  lemma CopiesOnQueue(s: State, q: Queue, id: MessageID)
    requires Tracked(s) && CopiesExact(s) && TombstonesBuried(s) && OnlyOwed(s) && id in s.home
    ensures id in s.writes
    ensures Copies(Live(LogOf(s, q)), id) == if (q, id) in s.buried then [] else LandedOn(s, q, id)
  {
    if (q, id) in s.buried { BuriedCopies(s, q, id); } else { UnburiedCopies(s, q, id); }
  }

  /**
   The copies a message leaves on the dead-letter queue `depth` levels below its home: none once it is tombstoned there;
   at home the retry counts 0, 1, 2, ... whose writes did not go behind a torn tail; further down at most one.
   */
  ghost function Remaining(s: State, id: MessageID, depth: nat): seq<int>
    requires id in s.home && id in s.writes
  {
    var budget := Budget(s.maxRetries);
    if (DlqName(s.home[id], depth), id) in s.buried then []
    else if depth == 0 then Surviving(Min(s.writes[id], budget + 1), id, s.swallowed)
    else if s.writes[id] > budget + depth && (id, budget + depth) !in s.swallowed then [budget]
    else []
  }

  lemma LandedAtDepth(s: State, id: MessageID, depth: nat)
    requires id in s.home && id in s.writes && (DlqName(s.home[id], depth), id) !in s.buried
    ensures LandedOn(s, DlqName(s.home[id], depth), id) == Remaining(s, id, depth)
  {
    if depth == 0 {
      LandedAtHome(s.home[id], s.writes[id], s.maxRetries, id, s.swallowed);
    } else {
      LandedOnDlq(s.home[id], s.writes[id], depth, s.maxRetries, id, s.swallowed);
    }
  }

  lemma CopiesAtDepth(s: State, id: MessageID, depth: nat)
    requires Good(s) && Exact(s) && id in s.home
    ensures id in s.writes && Copies(Live(LogOf(s, DlqName(s.home[id], depth))), id) == Remaining(s, id, depth)
  {
    var q := DlqName(s.home[id], depth);
    CopiesOnQueue(s, q, id);
    if (q, id) !in s.buried { LandedAtDepth(s, id, depth); }
  }

  /**
   The log of a session: from its home queue and from each dead-letter queue below, a message is replayed exactly as
   the copies that remain. It is tombstoned at most on the last queue it was written to.
   */
  lemma ExactLogHistory(start: State, steps: seq<Step>, s: State, id: MessageID, depth: nat)
    requires Reachable(s, start, steps) && id in s.home
    ensures id in s.writes
    ensures Copies(Live(LogOf(s, DlqName(s.home[id], depth))), id) == Remaining(s, id, depth)
    ensures (DlqName(s.home[id], depth), id) in s.buried ==>
      s.writes[id] > 0 && DlqName(s.home[id], depth) == LastQueue(s, id)
  {
    ReachableIsExact(start, steps, s);
    CopiesAtDepth(s, id, depth);
  }

  /** No write for the message went behind a torn tail. */
  ghost predicate NoneLost(s: State, id: MessageID)
    requires id in s.writes
  {
    forall k: nat :: k < s.writes[id] ==> (id, k) !in s.swallowed
  }

  /** Without torn writes the copies at home are 0, 1, 2, ... up to the last retry there. */
  lemma WholeLogHistory(start: State, steps: seq<Step>, s: State, id: MessageID)
    requires Reachable(s, start, steps) && id in s.home && id in s.writes && NoneLost(s, id) && (s.home[id], id) !in s.buried
    ensures Copies(Live(LogOf(s, s.home[id])), id) == UpTo(Min(s.writes[id], Budget(s.maxRetries) + 1))
  {
    ExactLogHistory(start, steps, s, id, 0);
    AllSurvive(Min(s.writes[id], Budget(s.maxRetries) + 1), id, s.swallowed);
  }

  lemma LastLanded(s: State, id: MessageID)
    requires id in s.home && id in s.writes && s.writes[id] > 0 && (id, s.writes[id] - 1) !in s.swallowed
    ensures LandedOn(s, LastQueue(s, id), id) != []
  {
  }

  /** The last record of a message is replayed, or tombstoned, or was written behind a torn tail. */
  lemma LastIsReplayed(s: State, id: MessageID)
    requires Good(s) && Exact(s) && id in s.home && id in s.writes && s.writes[id] > 0
    requires (LastQueue(s, id), id) !in s.buried && (id, s.writes[id] - 1) !in s.swallowed
    ensures id in Ids(Live(LogOf(s, LastQueue(s, id))))
  {
    var q := LastQueue(s, id);
    CopiesOnQueue(s, q, id);
    LastLanded(s, id);
    if id !in Ids(Live(LogOf(s, q))) { CopiesNone(Live(LogOf(s, q)), id); }
  }

  /**
   A message published in this session that is no longer in memory was tombstoned on the last queue it was written to,
   or is still replayed from there, or its last write went behind a torn tail, or it was never written at all and the
   publisher was told so.
   */
  lemma GoneIsAccountedFor(start: State, steps: seq<Step>, s: State, id: MessageID)
    requires Reachable(s, start, steps) && id in s.home && id in s.owner && s.owner[id] == Gone
    ensures id in s.writes
    ensures s.writes[id] > 0 ==> var q := LastQueue(s, id);
      (q, id) in s.buried || (id, s.writes[id] - 1) in s.swallowed || id in Ids(Live(LogOf(s, q)))
  {
    ReachableIsExact(start, steps, s);
    if s.writes[id] > 0 && (LastQueue(s, id), id) !in s.buried && (id, s.writes[id] - 1) !in s.swallowed {
      LastIsReplayed(s, id);
    }
  }

  lemma HeldIsWritten(s: State, p: Place, m: Message)
    requires Settled(s) && Owned(s) && HoldsMsg(s, p, m) && m.id in s.home && !Ahead(s, p)
    ensures m.id in s.writes && s.writes[m.id] > 0 && m.queue == LastQueue(s, m.id) && (m.queue, m.id) !in s.buried
  {
    HeldFits(s, p, m);
  }

  lemma HeldIsLogged(s: State, p: Place, m: Message)
    requires Good(s) && Exact(s) && HoldsMsg(s, p, m) && m.id in s.home && !Ahead(s, p)
    ensures (m.queue, m.id) !in s.buried && m.id in s.writes && s.writes[m.id] > 0
    ensures (m.id, s.writes[m.id] - 1) !in s.swallowed ==> m.id in Ids(Live(LogOf(s, m.queue)))
  {
    HeldIsWritten(s, p, m);
    var last: nat := s.writes[m.id] - 1;
    if (m.id, last) !in s.swallowed { LastIsReplayed(s, m.id); }
  }

  /**
   Log first: a published message that is anywhere in memory, except inside `Enqueue` before its write, has been
   written; its record is in the log of its queue unless its last write went behind a torn tail.
   */
  lemma LogFirst(start: State, steps: seq<Step>, s: State, p: Place, m: Message)
    requires Reachable(s, start, steps) && HoldsMsg(s, p, m) && m.id in s.home && !Ahead(s, p)
    ensures (m.queue, m.id) !in s.buried
    ensures m.id in s.writes && s.writes[m.id] > 0
    ensures (m.id, s.writes[m.id] - 1) !in s.swallowed ==> m.id in Ids(Live(LogOf(s, m.queue)))
    ensures m.id in Ids(Live(LogOf(s, m.queue))) <==> (m.queue, m.id) in s.landed
  {
    ReachableIsExact(start, steps, s);
    HeldIsLogged(s, p, m);
    ReplayedExactly(start, steps, s, m.queue, m.id);
  }

  // ---------------------------------------------------------------------------
  // Dead letters
  // ---------------------------------------------------------------------------

  /** A record of the message was written to a dead-letter queue. */
  ghost predicate DeadLettered(s: State, id: MessageID) {
    id in s.home && id in s.writes && s.writes[id] > Budget(s.maxRetries) + 1
  }

  /**
   Whatever happened to the dead letter, the maxRetries + 1 copies stay in the log of the home queue, all but those
   whose write went behind a torn tail, and the next start puts every one of them back into the topic.
   */
  lemma DeadLetterReturns(start: State, steps: seq<Step>, s: State, id: MessageID, tears: map<Queue, Tear>, maxRetries: int32)
    requires Reachable(s, start, steps) && DeadLettered(s, id)
    ensures Copies(Live(LogOf(s, s.home[id])), id) == Surviving(Budget(s.maxRetries) + 1, id, s.swallowed)
    ensures Copies(TopicOf(Restart(s, tears, maxRetries), s.home[id]), id) == Surviving(Budget(s.maxRetries) + 1, id, s.swallowed)
  {
    ReachableIsExact(start, steps, s);
    CopiesAtHome(s, id);
    RestartedTopic(s, tears, maxRetries, s.home[id]);
  }

  lemma NotBuriedAtHome(s: State, id: MessageID)
    requires BuriedLast(s) && DeadLettered(s, id)
    ensures (s.home[id], id) !in s.buried
  {
    AtHomeExactly(s.home[id], s.writes[id] - 1, s.maxRetries);
  }

  lemma CopiesAtHome(s: State, id: MessageID)
    requires Good(s) && Exact(s) && DeadLettered(s, id)
    ensures Copies(Live(LogOf(s, s.home[id])), id) == Surviving(Budget(s.maxRetries) + 1, id, s.swallowed)
  {
    var home, n := s.home[id], s.writes[id];
    NotBuriedAtHome(s, id);
    CopiesOnQueue(s, home, id);
    LandedAtHome(home, n, s.maxRetries, id, s.swallowed);
  }

  lemma RestartedTopic(s: State, tears: map<Queue, Tear>, maxRetries: int32, q: Queue)
    ensures TopicOf(Restart(s, tears, maxRetries), q) == Live(LogOf(s, q))
  {
    assert Live([]) == [];
  }

  /** Within the session a dead-lettered message is on its home queue no more. */
  lemma DeadLetterIsElsewhere(start: State, steps: seq<Step>, s: State, p: Place, m: Message)
    requires Reachable(s, start, steps) && HoldsMsg(s, p, m) && DeadLettered(s, m.id)
    ensures m.queue != s.home[m.id]
  {
    RetriesFollowForm(start, steps, s, p, m);
    AtHomeExactly(s.home[m.id], Retries(s, p, m.id), s.maxRetries);
  }

  /** The story of the message goes on, and no delivery on its home queue is added. */
  ghost predicate NoHomeDelivery(s: State, s': State, id: MessageID)
    requires id in s.home
  {
    && DeadLettered(s', id) && s'.home[id] == s.home[id]
    && s'.delivered[(s.home[id], id)] == s.delivered[(s.home[id], id)]
  }

  lemma HandIsElsewhere(s: State, q: Queue, id: MessageID)
    requires Settled(s) && Owned(s) && DeadLettered(s, id) && q in s.hands && InHand(s.hands[q]) && s.hands[q].msg.id == id
    ensures s.hands[q].msg.queue != s.home[id]
  {
    HeldFits(s, AtHand(q), s.hands[q].msg);
    AtHomeExactly(s.home[id], s.writes[id] - 1, s.maxRetries);
  }

  lemma DeliveredElsewhere(s: State, s': State, id: MessageID, pair: (Queue, MessageID))
    requires DeadLettered(s, id) && s'.home == s.home && s'.writes == s.writes && s'.maxRetries == s.maxRetries
    requires s'.delivered == s.delivered + multiset{pair} && pair != (s.home[id], id)
    ensures NoHomeDelivery(s, s', id)
  {
  }

  lemma DeadLetterRegister(s: State, q: Queue, now: Instant, s': State, id: MessageID)
    requires Good(s) && DeadLettered(s, id) && Register(s, q, now) == Some(s')
    ensures NoHomeDelivery(s, s', id)
  {
    var m := s.hands[q].msg;
    if m.id == id { HandIsElsewhere(s, q, id); }
    DeliveredElsewhere(s, s', id, (m.queue, m.id));
  }

  lemma DeadLetterLater(s: State, s': State, id: MessageID)
    requires DeadLettered(s, id) && s'.home == s.home && s'.delivered == s.delivered && s'.maxRetries == s.maxRetries
    requires id in s'.writes && s'.writes[id] >= s.writes[id]
    ensures NoHomeDelivery(s, s', id)
  {
  }

  lemma DeadLetterLandRecord(s: State, t: nat, s': State, id: MessageID)
    requires DeadLettered(s, id) && t in s.tasks && s' == LandRecord(s, t)
    ensures NoHomeDelivery(s, s', id)
  {
    DeadLetterLater(s, s', id);
  }

  lemma DeadLetterSwallow(s: State, t: nat, s': State, id: MessageID)
    requires DeadLettered(s, id) && t in s.tasks && s' == SwallowRecord(s, t)
    ensures NoHomeDelivery(s, s', id)
  {
    DeadLetterLater(s, s', id);
  }

  lemma DeadLetterWrite(s: State, t: nat, s': State, id: MessageID)
    requires DeadLettered(s, id) && WriteRecord(s, t) == Some(s')
    ensures NoHomeDelivery(s, s', id)
  {
    if s.tasks[t].msg.queue in s.torn { DeadLetterSwallow(s, t, s', id); } else { DeadLetterLandRecord(s, t, s', id); }
  }

  lemma DeadLetterLand(s: State, t: nat, s': State, id: MessageID)
    requires DeadLettered(s, id) && t in s.tasks && s' == LandTombstone(s, t)
    ensures NoHomeDelivery(s, s', id)
  {
    DeadLetterLater(s, s', id);
  }

  lemma DeadLetterTombstone(s: State, t: nat, s': State, id: MessageID)
    requires DeadLettered(s, id) && WriteTombstone(s, t) == Some(s')
    ensures NoHomeDelivery(s, s', id)
  {
    if s.tasks[t].msg.queue in s.torn { DeadLetterLater(s, s', id); } else { DeadLetterLand(s, t, s', id); }
  }

  lemma DeadLetterCompact(s: State, q: Queue, s': State, id: MessageID)
    requires DeadLettered(s, id) && CompactLog(s, q) == Some(s')
    ensures NoHomeDelivery(s, s', id)
  {
    DeadLetterLater(s, s', id);
  }

  lemma DeadLetterLogStep(s: State, step: Step, s': State, id: MessageID)
    requires DeadLettered(s, id) && IsLogStep(step) && !step.SRestart? && LogNext(s, step) == Some(s')
    ensures NoHomeDelivery(s, s', id)
  {
    if step.SWriteRecord? {
      DeadLetterWrite(s, step.t, s', id);
    } else if step.SWriteTombstone? {
      DeadLetterTombstone(s, step.t, s', id);
    } else {
      DeadLetterCompact(s, step.q, s', id);
    }
  }

  lemma DeadLetterStep(s: State, step: Step, s': State, id: MessageID)
    requires Good(s) && DeadLettered(s, id) && !step.SRestart? && Next(s, step) == Some(s')
    ensures NoHomeDelivery(s, s', id)
  {
    if IsLogStep(step) {
      DeadLetterLogStep(s, step, s', id);
    } else if step.SRegister? {
      DeadLetterRegister(s, step.q, step.now, s', id);
    } else {
      StepFrame(s, step, s');
      DeadLetterFrame(s, step, s', id);
    }
  }

  lemma DeadLetterFrame(s: State, step: Step, s': State, id: MessageID)
    requires Good(s) && DeadLettered(s, id) && SameElse(s, step, s') && !step.SRegister?
    ensures NoHomeDelivery(s, s', id)
  {
    assert SameStory(s, s', id);
  }

  /** Nor is it delivered there again, whatever the rest of the session does. */
  lemma {:induction false} DeadLetterIsNotRedelivered(s: State, steps: seq<Step>, s': State, id: MessageID)
    requires Good(s) && DeadLettered(s, id) && Run(s, steps) == Some(s')
    requires forall i :: 0 <= i < |steps| ==> !steps[i].SRestart?
    ensures Good(s') && NoHomeDelivery(s, s', id)
  {
    if steps != [] {
      var init, last := steps[..|steps| - 1], steps[|steps| - 1];
      var before := Run(s, init).value;
      DeadLetterIsNotRedelivered(s, init, before, id);
      StepKeepsGood(before, last, s');
      DeadLetterStep(before, last, s', id);
    }
  }
}
