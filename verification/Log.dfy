/** What a log means as a sequence of records: message records minus tombstoned IDs. */
module Log {
  import opened Core
  import opened Wire

  function Put(m: Message): Record {
    Record(KIND_MESSAGE, m.id, Some(RecordMsg(m.queue, m.payload, m.headers, m.retryCount, m.enqueueTime)))
  }

  function Tombstone(id: MessageID): Record { Record(KIND_TOMBSTONE, id, None) }

  /** The kind bytes on disk: 1 is a message, 2 a tombstone. */
  lemma KindBytes(c: Codec, m: Message, id: MessageID)
    ensures Frame(c, Put(m))[4] == 1 && Frame(c, Tombstone(id))[4] == 2
  {
  }

  predicate IsPut(rec: Record) { rec.kind == KIND_MESSAGE && rec.msg.Some? }

  predicate IsTombstone(rec: Record) { rec.kind == KIND_TOMBSTONE }

  /** A replayed message is pending and has no dispatch time. */
  function MessageOf(rec: Record): Message
    requires rec.msg.Some?
  {
    var m := rec.msg.value;
    Message(rec.id, m.queue, m.payload, m.headers, m.retryCount, m.enqueueTime, 0, Pending)
  }

  /** What a trip through the log leaves of a message. */
  function Stored(m: Message): Message { m.(dispatchedAt := 0, status := Pending) }

  function Messages(recs: seq<Record>): seq<Message> {
    if recs == [] then []
    else
      var init, last := recs[..|recs| - 1], recs[|recs| - 1];
      if IsPut(last) then Messages(init) + [MessageOf(last)] else Messages(init)
  }

  function Tombstoned(recs: seq<Record>): set<MessageID> {
    set i | 0 <= i < |recs| && IsTombstone(recs[i]) :: recs[i].id
  }

  function Without(ms: seq<Message>, dead: set<MessageID>): seq<Message> {
    if ms == [] then []
    else
      var init, last := ms[..|ms| - 1], ms[|ms| - 1];
      if last.id in dead then Without(init, dead) else Without(init, dead) + [last]
  }

  /** The messages a replay returns. */
  function Live(recs: seq<Record>): seq<Message> { Without(Messages(recs), Tombstoned(recs)) }

  function Puts(ms: seq<Message>): seq<Record> { seq(|ms|, i requires 0 <= i < |ms| => Put(ms[i])) }

  /** The records a compaction writes. */
  function Compacted(recs: seq<Record>): seq<Record> { Puts(Live(recs)) }

  /** The records the broker's writers produce. */
  predicate Written(recs: seq<Record>) {
    forall i :: 0 <= i < |recs| ==> IsPut(recs[i]) || recs[i] == Tombstone(recs[i].id)
  }

  // ---------------------------------------------------------------------------
  // Appending and concatenating
  // ---------------------------------------------------------------------------

  lemma MessagesAppend(recs: seq<Record>, rec: Record)
    ensures Messages(recs + [rec]) == if IsPut(rec) then Messages(recs) + [MessageOf(rec)] else Messages(recs)
  {
    assert (recs + [rec])[..|recs|] == recs;
  }

  lemma TombstoneAddsNoMessage(recs: seq<Record>, id: MessageID)
    ensures Messages(recs + [Tombstone(id)]) == Messages(recs)
    ensures Messages([Tombstone(id)]) == []
  {
    MessagesAppend(recs, Tombstone(id));
    assert [Tombstone(id)][..0] == [];
  }

  lemma {:induction false} MessagesConcat(a: seq<Record>, b: seq<Record>)
    ensures Messages(a + b) == Messages(a) + Messages(b)
  {
    if b == [] {
      assert a + b == a;
    } else {
      var init, last := b[..|b| - 1], b[|b| - 1];
      MessagesConcat(a, init);
      assert a + b == (a + init) + [last] && b == init + [last];
      MessagesAppend(a + init, last);
      MessagesAppend(init, last);
    }
  }

  lemma TombstonedConcat(a: seq<Record>, b: seq<Record>)
    ensures Tombstoned(a + b) == Tombstoned(a) + Tombstoned(b)
  {
    forall id | id in Tombstoned(b) ensures id in Tombstoned(a + b) {
      var i :| 0 <= i < |b| && IsTombstone(b[i]) && b[i].id == id;
      assert (a + b)[|a| + i] == b[i];
    }
    forall id | id in Tombstoned(a) ensures id in Tombstoned(a + b) {
      var i :| 0 <= i < |a| && IsTombstone(a[i]) && a[i].id == id;
      assert (a + b)[i] == a[i];
    }
  }

  lemma TombstonedAppend(recs: seq<Record>, rec: Record)
    ensures Tombstoned(recs + [rec]) == if IsTombstone(rec) then Tombstoned(recs) + {rec.id} else Tombstoned(recs)
  {
    TombstonedConcat(recs, [rec]);
    if IsTombstone(rec) { assert [rec][0] == rec; }
  }

  lemma OnePut(m: Message)
    ensures Messages([Put(m)]) == [Stored(m)] && Tombstoned([Put(m)]) == {}
  {
    assert [Put(m)][..0] == [];
    assert Messages([Put(m)]) == Messages([]) + [MessageOf(Put(m))];
  }

  lemma WithoutAppend(ms: seq<Message>, m: Message, dead: set<MessageID>)
    ensures Without(ms + [m], dead) == if m.id in dead then Without(ms, dead) else Without(ms, dead) + [m]
  {
    assert (ms + [m])[..|ms|] == ms;
  }

  lemma WithoutNext(ms: seq<Message>, n: nat, dead: set<MessageID>)
    requires n < |ms|
    ensures Without(ms[..n + 1], dead) == if ms[n].id in dead then Without(ms[..n], dead) else Without(ms[..n], dead) + [ms[n]]
  {
    assert ms[..n + 1] == ms[..n] + [ms[n]];
    WithoutAppend(ms[..n], ms[n], dead);
  }

  lemma {:induction false} WithoutConcat(a: seq<Message>, b: seq<Message>, dead: set<MessageID>)
    ensures Without(a + b, dead) == Without(a, dead) + Without(b, dead)
  {
    if b == [] {
      assert a + b == a;
    } else {
      var init, last := b[..|b| - 1], b[|b| - 1];
      WithoutConcat(a, init, dead);
      assert a + b == (a + init) + [last] && b == init + [last];
      WithoutAppend(a + init, last, dead);
      WithoutAppend(init, last, dead);
      var x, y := Without(a, dead), Without(init, dead);
      assert (x + y) + [last] == x + (y + [last]);
    }
  }

  lemma {:induction false} WithoutTwice(ms: seq<Message>, d: set<MessageID>, e: set<MessageID>)
    ensures Without(Without(ms, d), e) == Without(ms, d + e)
  {
    if ms != [] {
      var init, last := ms[..|ms| - 1], ms[|ms| - 1];
      WithoutTwice(init, d, e);
      WithoutAppend(Without(init, d), last, e);
    }
  }

  /** What is kept is exactly the messages outside `dead`. */
  lemma {:induction false} WithoutMembers(ms: seq<Message>, dead: set<MessageID>)
    ensures forall m :: m in Without(ms, dead) <==> m in ms && m.id !in dead
  {
    if ms != [] { WithoutMembers(ms[..|ms| - 1], dead); }
  }

  lemma {:induction false} WithoutIrrelevant(ms: seq<Message>, dead: set<MessageID>)
    ensures |Without(ms, dead)| <= |ms|
    ensures Without(ms, dead) == ms <==> forall m :: m in ms ==> m.id !in dead
    ensures |Without(ms, dead)| == |ms| <==> Without(ms, dead) == ms
  {
    if ms != [] {
      var init, last := ms[..|ms| - 1], ms[|ms| - 1];
      WithoutIrrelevant(init, dead);
      assert ms == init + [last];
    }
  }

  lemma {:induction false} MessagesOfPuts(ms: seq<Message>)
    ensures |Messages(Puts(ms))| == |ms|
    ensures forall i :: 0 <= i < |ms| ==> Messages(Puts(ms))[i] == Stored(ms[i])
    ensures Tombstoned(Puts(ms)) == {}
  {
    if ms != [] {
      var init, last := ms[..|ms| - 1], ms[|ms| - 1];
      MessagesOfPuts(init);
      assert Puts(ms) == Puts(init) + [Put(last)];
      MessagesAppend(Puts(init), Put(last));
    }
  }

  /** Replayed messages are unchanged by storing them again. */
  lemma {:induction false} MessagesAreStored(recs: seq<Record>)
    ensures forall m :: m in Messages(recs) ==> Stored(m) == m
  {
    if recs != [] { MessagesAreStored(recs[..|recs| - 1]); }
  }

  lemma LiveAreStored(recs: seq<Record>)
    ensures forall m :: m in Live(recs) ==> Stored(m) == m
  {
    MessagesAreStored(recs);
    WithoutMembers(Messages(recs), Tombstoned(recs));
  }

  lemma MessagesOfCompacted(recs: seq<Record>)
    ensures Messages(Compacted(recs)) == Live(recs)
    ensures Tombstoned(Compacted(recs)) == {}
  {
    MessagesOfPuts(Live(recs));
    LiveAreStored(recs);
  }

  // ---------------------------------------------------------------------------
  // What compaction and racing writers preserve
  // ---------------------------------------------------------------------------

  /** Two logs with the same messages in order and the same tombstoned IDs replay alike, however they interleave. */
  lemma TombstonePlacementIrrelevant(a: seq<Record>, b: seq<Record>, s: seq<Record>)
    requires Messages(a) == Messages(b) && Tombstoned(a) == Tombstoned(b)
    ensures Live(a + s) == Live(b + s)
  {
    MessagesConcat(a, s);
    MessagesConcat(b, s);
    TombstonedConcat(a, s);
    TombstonedConcat(b, s);
  }

  lemma CompactionPreservesLive(recs: seq<Record>)
    ensures Live(Compacted(recs)) == Live(recs)
  {
    MessagesOfCompacted(recs);
    WithoutIrrelevant(Live(recs), {});
  }

  lemma CompactionIdempotent(recs: seq<Record>)
    ensures Compacted(Compacted(recs)) == Compacted(recs)
  {
    CompactionPreservesLive(recs);
  }

  /** A message record of `s` carries an ID that `recs` tombstoned and `s` does not tombstone again. */
  ghost predicate Resurrects(recs: seq<Record>, s: seq<Record>) {
    exists m :: m in Messages(s) && m.id in Tombstoned(recs) && m.id !in Tombstoned(s)
  }

  /** Compaction cannot be told apart by any later appends `s`, if and only if `s` resurrects no tombstoned ID. */
  lemma CompactionInvisible(recs: seq<Record>, s: seq<Record>)
    ensures Live(Compacted(recs) + s) == Live(recs + s) <==> !Resurrects(recs, s)
  {
    var d, e := Tombstoned(recs), Tombstoned(s);
    MessagesConcat(recs, s);
    TombstonedConcat(recs, s);
    MessagesConcat(Compacted(recs), s);
    TombstonedConcat(Compacted(recs), s);
    MessagesOfCompacted(recs);
    WithoutConcat(Messages(recs), Messages(s), d + e);
    WithoutConcat(Live(recs), Messages(s), e);
    WithoutTwice(Messages(recs), d, e);
    assert {} + e == e;
    var prefix := Without(Messages(recs), d + e);
    assert Live(recs + s) == prefix + Without(Messages(s), d + e);
    assert Live(Compacted(recs) + s) == prefix + Without(Messages(s), e);
    WithoutTwice(Messages(s), e, d);
    assert e + d == d + e;
    var kept := Without(Messages(s), e);
    WithoutIrrelevant(kept, d);
    WithoutMembers(Messages(s), e);
    if Without(kept, d) != kept {
      assert |prefix + Without(kept, d)| != |prefix + kept|;
    }
  }

  /** Appended after a compaction, `s` adds no message and takes none away. */
  ghost predicate Unseen(recs: seq<Record>, s: seq<Record>) {
    Live(s) == [] && forall m :: m in Live(recs) ==> m.id !in Tombstoned(s)
  }

  lemma LiveAfterCompaction(recs: seq<Record>, s: seq<Record>)
    ensures Live(Compacted(recs) + s) == Without(Live(recs), Tombstoned(s)) + Live(s)
  {
    MessagesOfCompacted(recs);
    MessagesConcat(Compacted(recs), s);
    TombstonedConcat(Compacted(recs), s);
    WithoutConcat(Live(recs), Messages(s), Tombstoned(s));
    assert Tombstoned(Compacted(recs) + s) == Tombstoned(s);
  }

  /** Appends to a compacted log go unseen exactly if the replay is that of the log before. */
  lemma UnseenExactly(recs: seq<Record>, s: seq<Record>)
    ensures Live(Compacted(recs) + s) == Live(recs) <==> Unseen(recs, s)
  {
    var before, dead := Live(recs), Tombstoned(s);
    LiveAfterCompaction(recs, s);
    WithoutIrrelevant(before, dead);
    WithoutMembers(before, dead);
    WithoutMembers(Messages(s), dead);
    if Without(before, dead) + Live(s) == before {
      forall m | m in before ensures m.id !in dead {
        assert m in Without(before, dead) || m in Live(s);
      }
    }
    if Unseen(recs, s) { assert before + [] == before; }
  }
}
