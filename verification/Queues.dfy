/** The queue manager: topics and logs by name, log first. */
module Queues {
  import opened Core
  import opened Wire
  import opened Log
  import opened Topic

  /** Topics, the records of the log files, the closing flag, and the queues whose log writes fail. */
  datatype Store = Store(topics: map<Queue, seq<Message>>, logs: map<Queue, seq<Record>>, closing: bool, failing: set<Queue>)

  function LogIn(st: Store, q: Queue): seq<Record> { if q in st.logs then st.logs[q] else [] }

  function TopicIn(st: Store, q: Queue): seq<Message> { if q in st.topics then st.topics[q] else Live(LogIn(st, q)) }

  function Loaded(st: Store, q: Queue): Store { st.(topics := st.topics[q := TopicIn(st, q)]) }

  predicate Accepts(st: Store, q: Queue) { !st.closing && q !in st.failing }

  predicate Writable(st: Store, q: Queue) { q in st.topics && q !in st.failing }

  /** A rejected message changes nothing but the set of loaded queues. */
  function Enqueued(st: Store, m: Message): Store {
    if st.closing then st
    else if m.queue in st.failing then Loaded(st, m.queue)
    else st.(topics := st.topics[m.queue := TopicIn(st, m.queue) + [m]], logs := st.logs[m.queue := LogIn(st, m.queue) + [Put(m)]])
  }

  /** Log first: the message is at the back of both or of neither, and no other queue changes. */
  lemma EnqueuedExactly(st: Store, m: Message)
    ensures var st' := Enqueued(st, m);
      && (!st.closing && m.queue !in st.failing ==>
            TopicIn(st', m.queue) == TopicIn(st, m.queue) + [m] && LogIn(st', m.queue) == LogIn(st, m.queue) + [Put(m)])
      && (st.closing || m.queue in st.failing ==> st'.logs == st.logs && TopicIn(st', m.queue) == TopicIn(st, m.queue))
      && (forall q :: q != m.queue ==> Untouched(st, st', q))
  {
  }

  function Entombed(st: Store, q: Queue, id: MessageID): Store {
    if Writable(st, q) then st.(logs := st.logs[q := LogIn(st, q) + [Tombstone(id)]]) else st
  }

  function Before(cutoff: Instant): Message -> bool { (m: Message) => m.enqueueTime < cutoff }

  /** Neither topic nor log of the queue differs. */
  predicate Untouched(a: Store, b: Store, q: Queue) {
    && (q in b.topics <==> q in a.topics) && (q in b.logs <==> q in a.logs)
    && (q in a.topics ==> b.topics[q] == a.topics[q]) && (q in a.logs ==> b.logs[q] == a.logs[q])
  }

  function Tombstones(ms: seq<Message>): seq<Record> { seq(|ms|, i requires 0 <= i < |ms| => Tombstone(ms[i].id)) }

  /** A loaded queue without its old messages, each of them tombstoned. */
  function Expire(st: Store, q: Queue, cutoff: Instant): Store
    requires q in st.topics
  {
    st.(topics := st.topics[q := Matching(st.topics[q], Negated(Before(cutoff)))],
        logs := Buried(st, q, Matching(st.topics[q], Before(cutoff))))
  }

  function Buried(st: Store, q: Queue, removed: seq<Message>): map<Queue, seq<Record>> {
    if removed == [] || q in st.failing then st.logs else st.logs[q := LogIn(st, q) + Tombstones(removed)]
  }

  /** How many messages of a loaded queue are before the cutoff. */
  function TooOld(st: Store, q: Queue, cutoff: Instant): nat
    requires q in st.topics
  {
    |Matching(st.topics[q], Before(cutoff))|
  }

  datatype Sweep = Sweep(store: Store, removed: nat, ok: bool)

  /** The expiry of one loaded queue more; it errs if a tombstone cannot be written. */
  function Swept(w: Sweep, q: Queue, cutoff: Instant): Sweep
    requires q in w.store.topics
  {
    var k := TooOld(w.store, q, cutoff);
    Sweep(Expire(w.store, q, cutoff), w.removed + k, w.ok && (k == 0 || q !in w.store.failing))
  }

  ghost predicate AllLoaded(st: Store, queues: seq<Queue>) { forall i :: 0 <= i < |queues| ==> queues[i] in st.topics }

  /** The first `n` of the queues, one after the other. */
  ghost function SweepOf(st: Store, queues: seq<Queue>, n: nat, cutoff: Instant): (w: Sweep)
    requires n <= |queues| && AllLoaded(st, queues)
    ensures w.store.topics.Keys == st.topics.Keys
  {
    if n == 0 then Sweep(st, 0, true) else Swept(SweepOf(st, queues, n - 1, cutoff), queues[n - 1], cutoff)
  }

  lemma SweptSpares(a: Store, w: Sweep, q: Queue, p: Queue, cutoff: Instant)
    requires q in w.store.topics && p != q && Spared(a, w.store, p)
    ensures Spared(a, Swept(w, q, cutoff).store, p)
  {
  }

  /** The queue is as it was, and so is which writes fail. */
  predicate Spared(a: Store, b: Store, q: Queue) { Untouched(a, b, q) && b.failing == a.failing }

  lemma ExpireAlike(a: Store, b: Store, q: Queue, cutoff: Instant)
    requires q in a.topics && Spared(a, b, q)
    ensures Untouched(Expire(a, q, cutoff), Expire(b, q, cutoff), q)
  {
  }

  /** From one round to a later one, a queue whose turn is not in between keeps its messages and its log. */
  lemma {:induction false} SweepSpares(st: Store, queues: seq<Queue>, from: nat, n: nat, q: Queue, cutoff: Instant)
    requires from <= n <= |queues| && AllLoaded(st, queues) && forall i :: from <= i < n ==> queues[i] != q
    ensures Spared(SweepOf(st, queues, from, cutoff).store, SweepOf(st, queues, n, cutoff).store, q)
  {
    if n > from {
      var k: nat := n - 1;
      SweepSpares(st, queues, from, k, q, cutoff);
      SweptSpares(SweepOf(st, queues, from, cutoff).store, SweepOf(st, queues, k, cutoff), queues[k], q, cutoff);
    }
  }

  ghost predicate EachOnce(queues: seq<Queue>) { forall i, j :: 0 <= i < j < |queues| ==> queues[i] != queues[j] }

  /** Each listed queue ends up as if it had been expired alone. */
  lemma SweepExpires(st: Store, queues: seq<Queue>, i: nat, cutoff: Instant)
    requires i < |queues| && AllLoaded(st, queues) && EachOnce(queues)
    ensures Untouched(Expire(st, queues[i], cutoff), SweepOf(st, queues, |queues|, cutoff).store, queues[i])
  {
    var q := queues[i];
    SweepSpares(st, queues, 0, i, q, cutoff);
    ExpireAlike(st, SweepOf(st, queues, i, cutoff).store, q, cutoff);
    SweepSpares(st, queues, i + 1, |queues|, q, cutoff);
  }

  lemma TooOldAlike(a: Store, b: Store, q: Queue, cutoff: Instant)
    requires q in a.topics && Untouched(a, b, q)
    ensures TooOld(b, q, cutoff) == TooOld(a, q, cutoff)
  {
  }

  /** Every tombstone that the queue needs can be written. */
  predicate Settles(st: Store, q: Queue, cutoff: Instant)
    requires q in st.topics
  {
    TooOld(st, q, cutoff) == 0 || q !in st.failing
  }

  /** The `n`-th turn finds its queue as it was at the start. */
  lemma SweepFinds(st: Store, queues: seq<Queue>, n: nat, cutoff: Instant)
    requires n < |queues| && AllLoaded(st, queues) && EachOnce(queues)
    ensures var w, w' := SweepOf(st, queues, n, cutoff), SweepOf(st, queues, n + 1, cutoff);
      w'.removed == w.removed + TooOld(st, queues[n], cutoff) && (w'.ok <==> w.ok && Settles(st, queues[n], cutoff))
  {
    SweepSpares(st, queues, 0, n, queues[n], cutoff);
    TooOldAlike(st, SweepOf(st, queues, n, cutoff).store, queues[n], cutoff);
  }

  /** It errs exactly if a queue with a message to expire cannot be written. */
  lemma {:induction false} SweepErrs(st: Store, queues: seq<Queue>, n: nat, cutoff: Instant)
    requires n <= |queues| && AllLoaded(st, queues) && EachOnce(queues)
    ensures SweepOf(st, queues, n, cutoff).ok
       <==> forall i :: 0 <= i < n ==> Settles(st, queues[i], cutoff)
  {
    if n > 0 {
      var k: nat := n - 1;
      SweepErrs(st, queues, k, cutoff);
      SweepFinds(st, queues, k, cutoff);
      assert SweepOf(st, queues, n, cutoff).ok <==> SweepOf(st, queues, k, cutoff).ok && Settles(st, queues[k], cutoff);
    }
  }

  /**
   An expired queue holds exactly its messages that are not older than the cutoff, in order, and its log has a tombstone
   more for each of the others.
   */
  lemma ExpireExactly(st: Store, q: Queue, cutoff: Instant)
    requires q in st.topics
    ensures var st', ms := Expire(st, q, cutoff), st.topics[q]; var early := Matching(ms, Before(cutoff));
      && st'.topics[q] == Matching(ms, Negated(Before(cutoff)))
      && LogIn(st', q) == LogIn(st, q) + (if q in st.failing then [] else Tombstones(early))
      && (forall m :: m in st'.topics[q] <==> m in ms && m.enqueueTime >= cutoff)
      && (forall m :: m in early <==> m in ms && m.enqueueTime < cutoff)
  {
    MatchingMembers(st.topics[q], Before(cutoff));
    MatchingMembers(st.topics[q], Negated(Before(cutoff)));
  }

  class Manager {
    var topics: map<Queue, seq<Message>>
    var logs: map<Queue, seq<Record>>
    var closing: bool
    var failing: set<Queue>

    function View(): Store reads this { Store(topics, logs, closing, failing) }

    /** Loads an unknown queue from its log, message by message. */
    method InitQueue(q: Queue)
      modifies this`topics
      ensures View() == Loaded(old(View()), q)
    {
      if q in topics {
        assert topics[q := topics[q]] == topics;
        return;
      }
      var msgs := Live(if q in logs then logs[q] else []);
      var t: seq<Message> := [];
      for i := 0 to |msgs|
        invariant t == msgs[..i]
      {
        t := t + [msgs[i]];
      }
      assert msgs[..|msgs|] == msgs;
      topics := topics[q := t];
    }

    /** Refused exactly when closing or when the log fails. */
    method Enqueue(m: Message) returns (ok: bool)
      modifies this
      ensures View() == Enqueued(old(View()), m)
      ensures Accepts(old(View()), m.queue) == ok == (!old(closing) && m.queue !in old(failing))
    {
      if closing { return false; }
      InitQueue(m.queue);
      if m.queue in failing { return false; }
      logs := logs[m.queue := LogIn(View(), m.queue) + [Put(m)]];
      topics := topics[m.queue := topics[m.queue] + [m]];
      ok := true;
    }

    method WriteTombstone(id: MessageID, q: Queue) returns (ok: bool)
      modifies this`logs
      ensures View() == Entombed(old(View()), q, id)
      ensures Writable(old(View()), q) == ok == (q in topics && q !in failing)
      ensures logs == if ok then old(logs)[q := LogIn(old(View()), q) + [Tombstone(id)]] else old(logs)
    {
      ok := q in topics && q !in failing;
      if ok { logs := logs[q := LogIn(View(), q) + [Tombstone(id)]]; }
    }

    method TombstoneAll(removed: seq<Message>, q: Queue) returns (ok: bool)
      requires q in topics
      modifies this`logs
      ensures logs == Buried(old(View()), q, removed)
      ensures ok <==> removed == [] || q !in failing
    {
      ok := true;
      for i := 0 to |removed|
        invariant logs == Buried(old(View()), q, removed[..i])
        invariant ok <==> i == 0 || q !in failing
      {
        var done := WriteTombstone(removed[i].id, q);
        ok := ok && done;
        assert removed[..i + 1] != [];
        assert LogIn(old(View()), q) + (Tombstones(removed[..i]) + [Tombstone(removed[i].id)]) == LogIn(View(), q) || q in failing;
        assert Tombstones(removed[..i + 1]) == Tombstones(removed[..i]) + [Tombstone(removed[i].id)];
      }
      assert removed[..|removed|] == removed;
    }

    /** Removes the messages of a dead-letter queue that are older than the cutoff and tombstones each of them. */
    method ExpireQueue(q: Queue, cutoff: Instant) returns (n: nat, ok: bool)
      modifies this
      ensures View() == Expire(Loaded(old(View()), q), q, cutoff)
      ensures n == TooOld(Loaded(old(View()), q), q, cutoff) && (ok <==> n == 0 || q !in failing)
    {
      InitQueue(q);
      n, ok := ExpireLoaded(q, cutoff);
    }

    method ExpireLoaded(q: Queue, cutoff: Instant) returns (n: nat, ok: bool)
      requires q in topics
      modifies this
      ensures View() == Expire(old(View()), q, cutoff)
      ensures n == TooOld(old(View()), q, cutoff) && (ok <==> n == 0 || q !in failing)
    {
      var removed := Matching(topics[q], Before(cutoff));
      topics := topics[q := Matching(topics[q], Negated(Before(cutoff)))];
      ok := TombstoneAll(removed, q);
      n := |removed|;
    }

    /** The names of the known dead-letter queues, in the order in which the map is walked. */
    method DlqQueues() returns (queues: seq<Queue>)
      ensures forall q :: q in queues <==> q in topics && IsDlqQueue(q)
      ensures EachOnce(queues)
    {
      queues := [];
      var todo := topics.Keys;
      while todo != {}
        invariant todo <= topics.Keys
        invariant forall q :: q in queues <==> q in topics && q !in todo && IsDlqQueue(q)
        invariant EachOnce(queues)
        decreases todo
      {
        var q :| q in todo;
        if IsDlqQueue(q) { queues := queues + [q]; }
        todo := todo - {q};
      }
    }

    /**
     The known dead-letter queues, each of them once, lose their messages older than the retention, each with a
     tombstone; a retention of zero or less expires nothing.
     */
    method ExpireDlqOlderThan(retention: int, now: Instant) returns (n: nat, ok: bool, ghost queues: seq<Queue>)
      modifies this
      ensures (forall q :: q in queues <==> retention > 0 && q in old(topics) && IsDlqQueue(q)) && EachOnce(queues)
      ensures AllLoaded(old(View()), queues)
      ensures Sweep(View(), n, ok) == SweepOf(old(View()), queues, |queues|, now - retention)
      ensures forall q :: !IsDlqQueue(q) ==> Untouched(old(View()), View(), q)
    {
      var dlqQueues: seq<Queue> := [];
      if retention > 0 { dlqQueues := DlqQueues(); }
      queues := dlqQueues;
      n, ok := ExpireAll(dlqQueues, now - retention);
      forall q | !IsDlqQueue(q) ensures Untouched(old(View()), View(), q) {
        SweepSpares(old(View()), queues, 0, |queues|, q, now - retention);
      }
    }

    method ExpireAll(queues: seq<Queue>, cutoff: Instant) returns (n: nat, ok: bool)
      requires AllLoaded(View(), queues)
      modifies this
      ensures Sweep(View(), n, ok) == SweepOf(old(View()), queues, |queues|, cutoff)
    {
      n, ok := 0, true;
      for i := 0 to |queues|
        invariant Sweep(View(), n, ok) == SweepOf(old(View()), queues, i, cutoff)
      {
        var k, done := ExpireLoaded(queues[i], cutoff);
        n, ok := n + k, ok && done;
      }
    }

    method BeginShutdown()
      modifies this`closing
      ensures View() == old(View()).(closing := true)
      ensures forall q :: !Accepts(View(), q)
      ensures forall m :: Enqueued(View(), m) == View()
    {
      closing := true;
    }
  }

  lemma MessagesOfTombstones(ms: seq<Message>)
    ensures Messages(Tombstones(ms)) == []
    ensures forall id :: id in Tombstoned(Tombstones(ms)) <==> exists m :: m in ms && m.id == id
  {
    var recs := Tombstones(ms);
    NoPutNoMessage(recs);
    forall m | m in ms ensures m.id in Tombstoned(recs) {
      var i :| 0 <= i < |ms| && ms[i] == m;
      assert IsTombstone(recs[i]) && recs[i].id == m.id;
    }
  }

  lemma {:induction false} NoPutNoMessage(recs: seq<Record>)
    requires forall i :: 0 <= i < |recs| ==> !IsPut(recs[i])
    ensures Messages(recs) == []
  {
    if recs != [] { NoPutNoMessage(recs[..|recs| - 1]); }
  }

  /** What expiry does to the next replay: exactly the IDs it removed disappear. */
  lemma ExpiryOnReplay(recs: seq<Record>, removed: seq<Message>)
    ensures Live(recs + Tombstones(removed)) == Without(Live(recs), Tombstoned(Tombstones(removed)))
    ensures forall m :: m in Live(recs + Tombstones(removed)) <==>
      m in Live(recs) && forall r :: r in removed ==> r.id != m.id
  {
    var tombs := Tombstones(removed);
    MessagesConcat(recs, tombs);
    TombstonedConcat(recs, tombs);
    MessagesOfTombstones(removed);
    assert Messages(recs) + [] == Messages(recs);
    WithoutTwice(Messages(recs), Tombstoned(recs), Tombstoned(tombs));
    WithoutMembers(Live(recs), Tombstoned(tombs));
  }
}
