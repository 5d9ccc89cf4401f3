/** Whatever landed in a clean log and was not buried is in the replay of its queue, over every run and restart. */
module Durability {
  import opened Core
  import opened Wire
  import opened Log
  import opened Broker
  import opened Ownership

  ghost predicate LandedLogged(s: State) {
    forall q, id :: (q, id) in s.landed && (q, id) !in s.buried ==> id in Ids(Messages(LogOf(s, q)))
  }

  ghost predicate TombstonesBuried(s: State) {
    forall q, id :: id in Tombstoned(LogOf(s, q)) ==> (q, id) in s.buried
  }

  ghost predicate IdsIssued(s: State) {
    && LoggedIds(s.logs) <= s.issued
    && (forall q, id :: (q, id) in s.buried ==> id in s.issued)
  }

  ghost predicate Durable(s: State) { LandedLogged(s) && TombstonesBuried(s) && IdsIssued(s) }

  /** The durable claim: a landed message without a tombstone on its queue is among the replayed messages. */
  lemma DurableIsReplayed(s: State, q: Queue, id: MessageID)
    requires Durable(s) && (q, id) in s.landed && (q, id) !in s.buried
    ensures id in Ids(Live(LogOf(s, q)))
  {
    var recs := LogOf(s, q);
    var m :| m in Messages(recs) && m.id == id;
    WithoutMembers(Messages(recs), Tombstoned(recs));
    assert m in Live(recs);
  }

  lemma DurableFrame(s: State, s': State)
    requires Durable(s)
    requires s'.logs == s.logs && s'.landed == s.landed && s'.buried == s.buried && s.issued <= s'.issued
    ensures Durable(s')
  {
    forall q, id | (q, id) in s'.landed && (q, id) !in s'.buried ensures id in Ids(Messages(LogOf(s', q))) {
      assert id in Ids(Messages(LogOf(s, q)));
    }
    forall q, id | id in Tombstoned(LogOf(s', q)) ensures (q, id) in s'.buried {
      assert id in Tombstoned(LogOf(s, q));
    }
  }

  /** A record of an issued ID is appended to one log. */
  lemma IssuedAppend(s: State, q: Queue, rec: Record)
    requires LoggedIds(s.logs) <= s.issued && rec.id in s.issued
    ensures LoggedIds(Appended(s, q, rec)) <= s.issued
  {
    var logs := Appended(s, q, rec);
    forall id | id in LoggedIds(logs) ensures id in s.issued {
      var p, i :| p in logs && 0 <= i < |logs[p]| && logs[p][i].id == id;
      if p != q || i < |LogOf(s, q)| {
        assert p in s.logs && s.logs[p][i].id == id;
        assert id in LoggedIds(s.logs);
      }
    }
  }

  lemma DurableLandRecord(s: State, t: nat, s': State)
    requires Durable(s) && t in s.tasks && s' == LandRecord(s, t) && s.tasks[t].msg.id in s.issued
    ensures Durable(s')
  {
    var m := s.tasks[t].msg;
    var recs := LogOf(s, m.queue);
    MessagesAppend(recs, Put(m));
    TombstonedAppend(recs, Put(m));
    IdsAppend(Messages(recs), MessageOf(Put(m)));
    IssuedAppend(s, m.queue, Put(m));
    forall q, id | (q, id) in s'.landed && (q, id) !in s'.buried ensures id in Ids(Messages(LogOf(s', q))) {
      assert q != m.queue ==> LogOf(s', q) == LogOf(s, q);
      if (q, id) in s.landed { assert id in Ids(Messages(LogOf(s, q))); }
    }
    forall q, id | id in Tombstoned(LogOf(s', q)) ensures (q, id) in s'.buried {
      assert id in Tombstoned(LogOf(s, q));
    }
  }

  lemma DurableLandTombstone(s: State, t: nat, s': State)
    requires Durable(s) && t in s.tasks && s' == LandTombstone(s, t) && s.tasks[t].msg.id in s.issued
    ensures Durable(s')
  {
    var m := s.tasks[t].msg;
    var recs := LogOf(s, m.queue);
    MessagesAppend(recs, Tombstone(m.id));
    TombstonedAppend(recs, Tombstone(m.id));
    IssuedAppend(s, m.queue, Tombstone(m.id));
    forall q, id | (q, id) in s'.landed && (q, id) !in s'.buried ensures id in Ids(Messages(LogOf(s', q))) {
      assert id in Ids(Messages(LogOf(s, q)));
    }
    forall q, id | id in Tombstoned(LogOf(s', q)) ensures (q, id) in s'.buried {
      if id in Tombstoned(LogOf(s, q)) { assert (q, id) in s.buried; }
    }
  }

  lemma IssuedCompact(s: State, q: Queue)
    requires LoggedIds(s.logs) <= s.issued
    ensures LoggedIds(s.logs[q := Compacted(LogOf(s, q))]) <= s.issued
  {
    var logs := s.logs[q := Compacted(LogOf(s, q))];
    forall id | id in LoggedIds(logs) ensures id in s.issued {
      var p, i :| p in logs && 0 <= i < |logs[p]| && logs[p][i].id == id;
      var j := i;
      if p == q {
        LiveIdsAreLogged(LogOf(s, q), Live(LogOf(s, q))[i]);
        j :| 0 <= j < |LogOf(s, q)| && LogOf(s, q)[j].id == id;
      }
      assert p in s.logs && s.logs[p][j].id == id;
      assert id in LoggedIds(s.logs);
    }
  }

  /** Compaction drops tombstones together with everything they bury, and nothing else. */
  lemma DurableCompact(s: State, p: Queue, s': State)
    requires Durable(s) && CompactLog(s, p) == Some(s')
    ensures Durable(s')
  {
    MessagesOfCompacted(LogOf(s, p));
    IssuedCompact(s, p);
    forall q, id | (q, id) in s'.landed && (q, id) !in s'.buried ensures id in Ids(Messages(LogOf(s', q))) {
      if q == p { DurableIsReplayed(s, q, id); } else { assert id in Ids(Messages(LogOf(s, q))); }
    }
    forall q, id | id in Tombstoned(LogOf(s', q)) ensures (q, id) in s'.buried {
      assert q != p;
      assert id in Tombstoned(LogOf(s, q));
    }
  }

  lemma {:induction false} PutIsMessage(recs: seq<Record>, i: nat)
    requires i < |recs| && IsPut(recs[i])
    ensures recs[i].id in Ids(Messages(recs))
  {
    var init, last := recs[..|recs| - 1], recs[|recs| - 1];
    if i < |init| { PutIsMessage(init, i); }
    if IsPut(last) { IdsAppend(Messages(init), MessageOf(last)); }
  }

  lemma DurableInitial(s: State)
    requires Initial(s)
    ensures Durable(s)
  {
    forall q, id | (q, id) in s.landed ensures id in Ids(Messages(LogOf(s, q))) {
      var i :| 0 <= i < |s.logs[q]| && IsPut(s.logs[q][i]) && s.logs[q][i].id == id;
      PutIsMessage(s.logs[q], i);
    }
    forall q, id | id in Tombstoned(LogOf(s, q)) ensures (q, id) in s.buried {
      var i :| 0 <= i < |LogOf(s, q)| && IsTombstone(LogOf(s, q)[i]) && LogOf(s, q)[i].id == id;
      assert s.logs[q][i].id == id;
    }
    forall q, id | (q, id) in s.buried ensures id in s.issued {
      var i :| 0 <= i < |s.logs[q]| && IsTombstone(s.logs[q][i]) && s.logs[q][i].id == id;
      assert id in LoggedIds(s.logs);
    }
  }
}
