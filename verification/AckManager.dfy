/** The in-flight map and the outcomes of deliveries, run to completion one call at a time. */
module AckManager {
  import opened Core
  import opened Wire
  import opened Log
  import opened Registry
  import opened Queues

  /** Everything an outcome touches. */
  datatype Ledger = Ledger(inFlight: map<MessageID, Entry>, counts: map<ConsumerID, int>, store: Store)

  function AfterDecrement(l: Ledger, c: ConsumerID): Ledger { l.(counts := AddTo(l.counts, c, -1)) }

  function NackEntry(l: Ledger, e: Entry, maxRetries: int32, now: Instant): Ledger {
    AfterDecrement(l, e.consumer).(store := Enqueued(l.store, AfterNack(e.msg, maxRetries, now)))
  }

  /** A negative outcome: unknown IDs are ignored. */
  function NackedBy(l: Ledger, id: MessageID, maxRetries: int32, now: Instant): Ledger {
    if id in l.inFlight then NackEntry(l.(inFlight := l.inFlight - {id}), l.inFlight[id], maxRetries, now) else l
  }

  function BuryEntry(l: Ledger, e: Entry): Ledger {
    AfterDecrement(l, e.consumer).(store := Entombed(l.store, e.msg.queue, e.msg.id))
  }

  function AckedBy(l: Ledger, id: MessageID): Ledger {
    if id in l.inFlight then BuryEntry(l.(inFlight := l.inFlight - {id}), l.inFlight[id]) else l
  }

  /** What `Unregister` leaves: the entry is gone, its consumer decremented, and nothing written. */
  function Unregistered(l: Ledger, id: MessageID): Ledger {
    if id in l.inFlight then AfterDecrement(l.(inFlight := l.inFlight - {id}), l.inFlight[id].consumer) else l
  }

  /** Single outcomes one after the other, each at the clock reading for its message. */
  ghost function NackAll(l: Ledger, order: seq<MessageID>, maxRetries: int32, clock: MessageID -> Instant): Ledger {
    if order == [] then l
    else
      var last := order[|order| - 1];
      NackedBy(NackAll(l, order[..|order| - 1], maxRetries, clock), last, maxRetries, clock(last))
  }

  ghost function AckAll(l: Ledger, order: seq<MessageID>): Ledger {
    if order == [] then l else AckedBy(AckAll(l, order[..|order| - 1]), order[|order| - 1])
  }

  ghost predicate Distinct(order: seq<MessageID>) { forall i, j :: 0 <= i < j < |order| ==> order[i] != order[j] }

  ghost predicate Keyed(l: Ledger) { forall id :: id in l.inFlight ==> l.inFlight[id].msg.id == id }

  /** `order` lists, once each, the in-flight IDs whose entry satisfies `pick`. */
  ghost predicate Lists(order: seq<MessageID>, inFlight: map<MessageID, Entry>, pick: Entry -> bool) {
    Distinct(order) && forall id :: id in order <==> id in inFlight && pick(inFlight[id])
  }

  // ---------------------------------------------------------------------------
  // A batch does what single outcomes do, in any order
  // ---------------------------------------------------------------------------

  lemma NackAllNext(l: Ledger, init: seq<MessageID>, last: MessageID, maxRetries: int32, clock: MessageID -> Instant)
    ensures NackAll(l, init + [last], maxRetries, clock)
         == NackedBy(NackAll(l, init, maxRetries, clock), last, maxRetries, clock(last))
  {
    assert (init + [last])[..|init|] == init;
  }

  lemma {:induction false} NackAllInFlight(l: Ledger, order: seq<MessageID>, maxRetries: int32, clock: MessageID -> Instant)
    requires Distinct(order) && forall id :: id in order ==> id in l.inFlight
    ensures NackAll(l, order, maxRetries, clock).inFlight == l.inFlight - set id | id in order
    ensures NackAll(l, order, maxRetries, clock).store.closing == l.store.closing
    ensures NackAll(l, order, maxRetries, clock).store.failing == l.store.failing
  {
    if order != [] {
      var init, last := order[..|order| - 1], order[|order| - 1];
      assert order == init + [last];
      NackAllInFlight(l, init, maxRetries, clock);
      assert last !in init;
    }
  }

  /** The ID of `order` charged to consumer `c`. */
  ghost function ChargedIn(l: Ledger, order: seq<MessageID>, c: ConsumerID): set<MessageID> {
    set id | id in order && id in l.inFlight && l.inFlight[id].consumer == c
  }

  lemma ChargedInNext(l: Ledger, init: seq<MessageID>, last: MessageID, c: ConsumerID)
    requires last !in init && last in l.inFlight
    ensures |ChargedIn(l, init + [last], c)| == |ChargedIn(l, init, c)| + One(l.inFlight[last].consumer == c)
  {
    assert ChargedIn(l, init + [last], c)
        == if l.inFlight[last].consumer == c then ChargedIn(l, init, c) + {last} else ChargedIn(l, init, c);
  }

  /** The counter of `c` after the outcomes of `order`. */
  ghost predicate CountedDown(l: Ledger, l': Ledger, order: seq<MessageID>, c: ConsumerID) {
    c in l.counts && c in l'.counts && l'.counts[c] == l.counts[c] - |ChargedIn(l, order, c)|
  }

  lemma CountNext(l: Ledger, mid: Ledger, init: seq<MessageID>, last: MessageID, maxRetries: int32, now: Instant, c: ConsumerID)
    requires last !in init && last in l.inFlight && last in mid.inFlight && mid.inFlight[last] == l.inFlight[last]
    requires CountedDown(l, mid, init, c)
    ensures CountedDown(l, NackedBy(mid, last, maxRetries, now), init + [last], c)
  {
    ChargedInNext(l, init, last, c);
  }

  /** Every counter drops by the number of its own entries among the outcomes. */
  lemma {:induction false} NackAllCounts(l: Ledger, order: seq<MessageID>, maxRetries: int32, clock: MessageID -> Instant, c: ConsumerID)
    requires Distinct(order) && (forall id :: id in order ==> id in l.inFlight) && c in l.counts
    ensures CountedDown(l, NackAll(l, order, maxRetries, clock), order, c)
  {
    if order == [] {
      assert ChargedIn(l, order, c) == {};
    } else {
      var init, last := order[..|order| - 1], order[|order| - 1];
      assert order == init + [last] && last !in init;
      NackAllCounts(l, init, maxRetries, clock, c);
      NackAllInFlight(l, init, maxRetries, clock);
      NackAllNext(l, init, last, maxRetries, clock);
      CountNext(l, NackAll(l, init, maxRetries, clock), init, last, maxRetries, clock(last), c);
    }
  }

  lemma {:induction false} NackAllKeys(l: Ledger, order: seq<MessageID>, maxRetries: int32, clock: MessageID -> Instant)
    ensures NackAll(l, order, maxRetries, clock).counts.Keys == l.counts.Keys
  {
    if order != [] { NackAllKeys(l, order[..|order| - 1], maxRetries, clock); }
  }

  /** What the outcome of `id` puts back. */
  ghost function Returned(l: Ledger, id: MessageID, maxRetries: int32, clock: MessageID -> Instant): Message
    requires id in l.inFlight
  {
    AfterNack(l.inFlight[id].msg, maxRetries, clock(id))
  }

  /** The messages put back on queue `q`, in the order of the outcomes. */
  ghost function ReturnedTo(l: Ledger, order: seq<MessageID>, q: Queue, maxRetries: int32, clock: MessageID -> Instant): seq<Message>
    requires forall id :: id in order ==> id in l.inFlight
  {
    if order == [] then []
    else
      var init, last := order[..|order| - 1], order[|order| - 1];
      var m := Returned(l, last, maxRetries, clock);
      var before := ReturnedTo(l, init, q, maxRetries, clock);
      if m.queue == q then before + [m] else before
  }

  ghost predicate Touches(l: Ledger, order: seq<MessageID>, q: Queue, maxRetries: int32, clock: MessageID -> Instant)
    requires forall id :: id in order ==> id in l.inFlight
  {
    exists id :: id in order && Returned(l, id, maxRetries, clock).queue == q
  }

  /** Topics and logs gain exactly the returned messages, queue by queue. */
  lemma {:induction false} NackAllStore(l: Ledger, order: seq<MessageID>, maxRetries: int32, clock: MessageID -> Instant, q: Queue)
    requires Distinct(order) && (forall id :: id in order ==> id in l.inFlight) && !l.store.closing
    ensures var st := NackAll(l, order, maxRetries, clock).store;
      var sent := if q in l.store.failing then [] else ReturnedTo(l, order, q, maxRetries, clock);
      && (q in st.topics <==> q in l.store.topics || Touches(l, order, q, maxRetries, clock))
      && (q in st.topics ==> st.topics[q] == TopicIn(l.store, q) + sent)
      && (q !in st.topics ==> sent == [])
      && LogIn(st, q) == LogIn(l.store, q) + Puts(sent)
  {
    if order != [] {
      var init, last := order[..|order| - 1], order[|order| - 1];
      assert order == init + [last] && last !in init;
      NackAllStore(l, init, maxRetries, clock, q);
      NackAllInFlight(l, init, maxRetries, clock);
      var m := Returned(l, last, maxRetries, clock);
      var mid := NackAll(l, init, maxRetries, clock);
      assert NackAll(l, order, maxRetries, clock).store == Enqueued(mid.store, m);
      assert Touches(l, order, q, maxRetries, clock) <==> Touches(l, init, q, maxRetries, clock) || m.queue == q;
      StoreStep(l.store, mid.store, q, ReturnedTo(l, init, q, maxRetries, clock), m);
    }
  }

  lemma StoreStep(start: Store, st: Store, q: Queue, before: seq<Message>, m: Message)
    requires !st.closing && st.failing == start.failing
    requires var sent := if q in start.failing then [] else before;
      && (q in st.topics ==> st.topics[q] == TopicIn(start, q) + sent)
      && (q !in st.topics ==> sent == [])
      && LogIn(st, q) == LogIn(start, q) + Puts(sent)
      && (q !in st.topics ==> q !in start.topics)
    ensures var after := if m.queue == q then before + [m] else before;
      var sent := if q in start.failing then [] else after;
      var st' := Enqueued(st, m);
      && (q in st'.topics <==> q in st.topics || m.queue == q)
      && (q in st'.topics ==> st'.topics[q] == TopicIn(start, q) + sent)
      && LogIn(st', q) == LogIn(start, q) + Puts(sent)
  {
    if m.queue == q && q !in start.failing {
      assert Puts(before + [m]) == Puts(before) + [Put(m)];
      assert TopicIn(st, q) == TopicIn(start, q) + before by {
        if q !in st.topics { assert LogIn(st, q) == LogIn(start, q); }
      }
    } else if m.queue == q {
      if q !in st.topics { assert LogIn(st, q) == LogIn(start, q); }
    }
  }

  /** How often a message is returned depends on the set of IDs alone. */
  lemma {:induction false} ReturnedCount(l: Ledger, order: seq<MessageID>, q: Queue, maxRetries: int32,
                                         clock: MessageID -> Instant, m: Message)
    requires Keyed(l) && Distinct(order) && forall id :: id in order ==> id in l.inFlight
    ensures multiset(ReturnedTo(l, order, q, maxRetries, clock))[m]
         == One(m.id in order && m.queue == q && Returned(l, m.id, maxRetries, clock) == m)
  {
    if order != [] {
      var init, last := order[..|order| - 1], order[|order| - 1];
      assert order == init + [last] && last !in init;
      ReturnedCount(l, init, q, maxRetries, clock, m);
      assert Returned(l, last, maxRetries, clock).id == last;
    }
  }

  lemma ReturnedAlike(l: Ledger, a: seq<MessageID>, b: seq<MessageID>, q: Queue, maxRetries: int32, clock: MessageID -> Instant)
    requires Keyed(l) && Distinct(a) && Distinct(b) && (forall id :: id in a <==> id in b)
    requires forall id :: id in a ==> id in l.inFlight
    ensures multiset(ReturnedTo(l, a, q, maxRetries, clock)) == multiset(ReturnedTo(l, b, q, maxRetries, clock))
    ensures ReturnedTo(l, a, q, maxRetries, clock) == [] <==> ReturnedTo(l, b, q, maxRetries, clock) == []
  {
    var x, y := ReturnedTo(l, a, q, maxRetries, clock), ReturnedTo(l, b, q, maxRetries, clock);
    forall m ensures multiset(x)[m] == multiset(y)[m] {
      ReturnedCount(l, a, q, maxRetries, clock, m);
      ReturnedCount(l, b, q, maxRetries, clock, m);
    }
    assert multiset(x) == multiset(y);
    assert |x| == |multiset(x)| && |y| == |multiset(y)|;
  }

  /** Queue `q` holds the same messages and the same log records, up to order. */
  ghost predicate StoreAlike(x: Store, y: Store, q: Queue) {
    && (q in x.topics <==> q in y.topics)
    && (q in x.topics ==> multiset(x.topics[q]) == multiset(y.topics[q]))
    && multiset(LogIn(x, q)) == multiset(LogIn(y, q))
  }

  /** Equal up to the order of messages within a topic and of the records appended to a log. */
  ghost predicate Alike(a: Ledger, b: Ledger) {
    && a.inFlight == b.inFlight && a.counts == b.counts
    && a.store.closing == b.store.closing && a.store.failing == b.store.failing
    && forall q :: StoreAlike(a.store, b.store, q)
  }

  lemma CountsAlike(l: Ledger, a: seq<MessageID>, b: seq<MessageID>, maxRetries: int32, clock: MessageID -> Instant)
    requires Distinct(a) && Distinct(b) && (forall id :: id in a <==> id in b)
    requires forall id :: id in a ==> id in l.inFlight
    ensures NackAll(l, a, maxRetries, clock).counts == NackAll(l, b, maxRetries, clock).counts
  {
    var x, y := NackAll(l, a, maxRetries, clock).counts, NackAll(l, b, maxRetries, clock).counts;
    NackAllKeys(l, a, maxRetries, clock);
    NackAllKeys(l, b, maxRetries, clock);
    forall c | c in l.counts ensures x[c] == y[c] {
      NackAllCounts(l, a, maxRetries, clock, c);
      NackAllCounts(l, b, maxRetries, clock, c);
      assert ChargedIn(l, a, c) == ChargedIn(l, b, c);
    }
  }

  lemma WithoutOne<T>(s: seq<T>, i: nat)
    requires i < |s|
    ensures multiset(s) == multiset(s[..i] + s[i + 1..]) + multiset{s[i]}
  {
    assert s == s[..i] + [s[i]] + s[i + 1..];
  }

  lemma CancelOne<T>(x: multiset<T>, y: multiset<T>, e: T)
    requires x + multiset{e} == y + multiset{e}
    ensures x == y
  {
    forall m ensures x[m] == y[m] {
      assert (x + multiset{e})[m] == (y + multiset{e})[m];
    }
  }

  lemma PutsWithoutOne(s: seq<Message>, i: nat)
    requires i < |s|
    ensures multiset(Puts(s)) == multiset(Puts(s[..i] + s[i + 1..])) + multiset{Put(s[i])}
  {
    WithoutOne(Puts(s), i);
    assert Puts(s)[..i] + Puts(s)[i + 1..] == Puts(s[..i] + s[i + 1..]);
  }

  lemma Peel<T>(a: seq<T>, b: seq<T>) returns (i: nat)
    requires multiset(a) == multiset(b) && a != []
    ensures i < |b| && b[i] == a[0] && multiset(a[..0] + a[1..]) == multiset(b[..i] + b[i + 1..])
  {
    assert a[0] in multiset(b);
    i :| 0 <= i < |b| && b[i] == a[0];
    WithoutOne(a, 0);
    WithoutOne(b, i);
    CancelOne(multiset(a[..0] + a[1..]), multiset(b[..i] + b[i + 1..]), a[0]);
  }

  lemma {:induction false} PutsMultiset(a: seq<Message>, b: seq<Message>)
    requires multiset(a) == multiset(b)
    ensures multiset(Puts(a)) == multiset(Puts(b))
    decreases |a|
  {
    if a == [] {
      assert |b| == |multiset(b)| == 0;
    } else {
      var i := Peel(a, b);
      PutsMultiset(a[..0] + a[1..], b[..i] + b[i + 1..]);
      PutsWithoutOne(a, 0);
      PutsWithoutOne(b, i);
    }
  }

  lemma StoresAlike(l: Ledger, a: seq<MessageID>, b: seq<MessageID>, maxRetries: int32, clock: MessageID -> Instant, q: Queue)
    requires Keyed(l) && Distinct(a) && Distinct(b) && (forall id :: id in a <==> id in b)
    requires (forall id :: id in a ==> id in l.inFlight) && !l.store.closing
    ensures StoreAlike(NackAll(l, a, maxRetries, clock).store, NackAll(l, b, maxRetries, clock).store, q)
  {
    NackAllStore(l, a, maxRetries, clock, q);
    NackAllStore(l, b, maxRetries, clock, q);
    ReturnedAlike(l, a, b, q, maxRetries, clock);
    PutsMultiset(ReturnedTo(l, a, q, maxRetries, clock), ReturnedTo(l, b, q, maxRetries, clock));
    assert Touches(l, a, q, maxRetries, clock) <==> Touches(l, b, q, maxRetries, clock);
  }

  lemma {:induction false} NackAllWhileClosing(l: Ledger, order: seq<MessageID>, maxRetries: int32, clock: MessageID -> Instant)
    requires l.store.closing
    ensures NackAll(l, order, maxRetries, clock).store == l.store
  {
    if order != [] { NackAllWhileClosing(l, order[..|order| - 1], maxRetries, clock); }
  }

  /**
   Negative outcomes of a set of deliveries commute: applied one at a time in any two orders they leave the same
   in-flight map and counters and, queue by queue, the same messages and log records, whether or not enqueues fail.
   */
  lemma NackAnyOrder(l: Ledger, a: seq<MessageID>, b: seq<MessageID>, maxRetries: int32, clock: MessageID -> Instant)
    requires Keyed(l) && Distinct(a) && Distinct(b) && (forall id :: id in a <==> id in b)
    requires forall id :: id in a ==> id in l.inFlight
    ensures Alike(NackAll(l, a, maxRetries, clock), NackAll(l, b, maxRetries, clock))
  {
    CountsAlike(l, a, b, maxRetries, clock);
    NackAllInFlight(l, a, maxRetries, clock);
    NackAllInFlight(l, b, maxRetries, clock);
    assert (set id | id in a) == set id | id in b;
    forall q
      ensures StoreAlike(NackAll(l, a, maxRetries, clock).store, NackAll(l, b, maxRetries, clock).store, q)
    {
      if l.store.closing {
        NackAllWhileClosing(l, a, maxRetries, clock);
        NackAllWhileClosing(l, b, maxRetries, clock);
      } else {
        StoresAlike(l, a, b, maxRetries, clock, q);
      }
    }
  }

  // ---------------------------------------------------------------------------
  // Removing first and processing later
  // ---------------------------------------------------------------------------

  /** Processing an entry does not look at the in-flight map. */
  lemma NackNext(l: Ledger, order: seq<MessageID>, i: nat, maxRetries: int32, clock: MessageID -> Instant,
                 mid: Ledger, next: Ledger)
    requires Distinct(order) && i < |order| && forall id :: id in order ==> id in l.inFlight
    requires mid == NackAll(l, order[..i], maxRetries, clock).(inFlight := mid.inFlight)
    requires next == NackEntry(mid, l.inFlight[order[i]], maxRetries, clock(order[i]))
    ensures next == NackAll(l, order[..i + 1], maxRetries, clock).(inFlight := mid.inFlight)
    ensures forall q :: Accepts(mid.store, q) <==> Accepts(l.store, q)
  {
    var init := order[..i];
    assert order[..i + 1][..i] == init;
    assert order[i] !in init;
    NackAllInFlight(l, init, maxRetries, clock);
    assert NackAll(l, init, maxRetries, clock).inFlight[order[i]] == l.inFlight[order[i]];
  }

  lemma AckAllNext(l: Ledger, init: seq<MessageID>, last: MessageID)
    ensures AckAll(l, init + [last]) == AckedBy(AckAll(l, init), last)
  {
    assert (init + [last])[..|init|] == init;
  }

  lemma {:induction false} AckAllInFlight(l: Ledger, order: seq<MessageID>)
    requires Distinct(order) && forall id :: id in order ==> id in l.inFlight
    ensures AckAll(l, order).inFlight == l.inFlight - set id | id in order
  {
    if order != [] {
      var init, last := order[..|order| - 1], order[|order| - 1];
      assert order == init + [last];
      AckAllInFlight(l, init);
      AckAllNext(l, init, last);
      assert last !in init;
    }
  }

  /** Tombstones change neither which queues are loaded nor which writes fail. */
  lemma {:induction false} AckAllWritable(l: Ledger, order: seq<MessageID>, q: Queue)
    ensures Writable(AckAll(l, order).store, q) <==> Writable(l.store, q)
  {
    if order != [] {
      var init, last := order[..|order| - 1], order[|order| - 1];
      assert order == init + [last];
      AckAllWritable(l, init, q);
      AckAllNext(l, init, last);
    }
  }

  lemma AckCountNext(l: Ledger, mid: Ledger, init: seq<MessageID>, last: MessageID, c: ConsumerID)
    requires last !in init && last in l.inFlight && last in mid.inFlight && mid.inFlight[last] == l.inFlight[last]
    requires CountedDown(l, mid, init, c)
    ensures CountedDown(l, AckedBy(mid, last), init + [last], c)
  {
    ChargedInNext(l, init, last, c);
  }

  lemma {:induction false} AckAllCounts(l: Ledger, order: seq<MessageID>, c: ConsumerID)
    requires Distinct(order) && (forall id :: id in order ==> id in l.inFlight) && c in l.counts
    ensures CountedDown(l, AckAll(l, order), order, c)
  {
    if order == [] {
      assert ChargedIn(l, order, c) == {};
    } else {
      var init, last := order[..|order| - 1], order[|order| - 1];
      assert order == init + [last] && last !in init;
      AckAllCounts(l, init, c);
      AckAllInFlight(l, init);
      AckAllNext(l, init, last);
      AckCountNext(l, AckAll(l, init), init, last, c);
    }
  }

  lemma {:induction false} AckAllKeys(l: Ledger, order: seq<MessageID>)
    ensures AckAll(l, order).counts.Keys == l.counts.Keys
  {
    if order != [] { AckAllKeys(l, order[..|order| - 1]); }
  }

  /** The tombstones written to `q`, in the order of the outcomes. */
  ghost function BuriedOn(l: Ledger, order: seq<MessageID>, q: Queue): seq<Record>
    requires forall id :: id in order ==> id in l.inFlight
  {
    if order == [] then []
    else
      var init, last := order[..|order| - 1], order[|order| - 1];
      var m := l.inFlight[last].msg;
      if m.queue == q && Writable(l.store, q) then BuriedOn(l, init, q) + [Tombstone(m.id)] else BuriedOn(l, init, q)
  }

  lemma BuryNext(l: Ledger, mid: Ledger, last: MessageID, q: Queue, before: seq<Record>)
    requires last in l.inFlight && last in mid.inFlight && mid.inFlight[last] == l.inFlight[last]
    requires Writable(mid.store, l.inFlight[last].msg.queue) <==> Writable(l.store, l.inFlight[last].msg.queue)
    requires LogIn(mid.store, q) == LogIn(l.store, q) + before
    ensures var m := l.inFlight[last].msg;
      LogIn(AckedBy(mid, last).store, q)
        == LogIn(l.store, q) + if m.queue == q && Writable(l.store, q) then before + [Tombstone(m.id)] else before
  {
  }

  /** Topics stay, and each log gains exactly the tombstones of its own messages. */
  lemma {:induction false} AckAllStore(l: Ledger, order: seq<MessageID>, q: Queue)
    requires Distinct(order) && forall id :: id in order ==> id in l.inFlight
    ensures var st := AckAll(l, order).store;
      && st.topics == l.store.topics && st.closing == l.store.closing && st.failing == l.store.failing
      && LogIn(st, q) == LogIn(l.store, q) + BuriedOn(l, order, q)
  {
    if order != [] {
      var init, last := order[..|order| - 1], order[|order| - 1];
      assert order == init + [last] && last !in init;
      AckAllStore(l, init, q);
      AckAllInFlight(l, init);
      AckAllWritable(l, init, l.inFlight[last].msg.queue);
      AckAllNext(l, init, last);
      BuryNext(l, AckAll(l, init), last, q, BuriedOn(l, init, q));
    }
  }

  /** Which tombstones are written depends on the set of IDs alone. */
  lemma {:induction false} BuriedCount(l: Ledger, order: seq<MessageID>, q: Queue, x: Record)
    requires Keyed(l) && Distinct(order) && forall id :: id in order ==> id in l.inFlight
    ensures multiset(BuriedOn(l, order, q))[x]
         == One(x == Tombstone(x.id) && x.id in order && l.inFlight[x.id].msg.queue == q && Writable(l.store, q))
  {
    if order != [] {
      var init, last := order[..|order| - 1], order[|order| - 1];
      assert order == init + [last] && last !in init;
      BuriedCount(l, init, q, x);
      assert l.inFlight[last].msg.id == last;
    }
  }

  lemma BuriedAlike(l: Ledger, a: seq<MessageID>, b: seq<MessageID>, q: Queue)
    requires Keyed(l) && Distinct(a) && Distinct(b) && (forall id :: id in a <==> id in b)
    requires forall id :: id in a ==> id in l.inFlight
    ensures multiset(BuriedOn(l, a, q)) == multiset(BuriedOn(l, b, q))
  {
    forall x ensures multiset(BuriedOn(l, a, q))[x] == multiset(BuriedOn(l, b, q))[x] {
      BuriedCount(l, a, q, x);
      BuriedCount(l, b, q, x);
    }
  }

  lemma AckStoresAlike(l: Ledger, a: seq<MessageID>, b: seq<MessageID>, q: Queue)
    requires Keyed(l) && Distinct(a) && Distinct(b) && (forall id :: id in a <==> id in b)
    requires forall id :: id in a ==> id in l.inFlight
    ensures StoreAlike(AckAll(l, a).store, AckAll(l, b).store, q)
  {
    AckAllStore(l, a, q);
    AckAllStore(l, b, q);
    BuriedAlike(l, a, b, q);
  }

  lemma AckCountsAlike(l: Ledger, a: seq<MessageID>, b: seq<MessageID>)
    requires Distinct(a) && Distinct(b) && (forall id :: id in a <==> id in b)
    requires forall id :: id in a ==> id in l.inFlight
    ensures AckAll(l, a).counts == AckAll(l, b).counts
  {
    var x, y := AckAll(l, a).counts, AckAll(l, b).counts;
    AckAllKeys(l, a);
    AckAllKeys(l, b);
    forall c | c in l.counts ensures x[c] == y[c] {
      AckAllCounts(l, a, c);
      AckAllCounts(l, b, c);
      assert ChargedIn(l, a, c) == ChargedIn(l, b, c);
    }
  }

  /** Acknowledgements of a set of deliveries commute, up to the order of the tombstones within a log. */
  lemma AckAnyOrder(l: Ledger, a: seq<MessageID>, b: seq<MessageID>)
    requires Keyed(l) && Distinct(a) && Distinct(b) && (forall id :: id in a <==> id in b)
    requires forall id :: id in a ==> id in l.inFlight
    ensures Alike(AckAll(l, a), AckAll(l, b))
  {
    AckCountsAlike(l, a, b);
    AckAllInFlight(l, a);
    AckAllInFlight(l, b);
    assert (set id | id in a) == set id | id in b;
    AckAllStore(l, a, "");
    AckAllStore(l, b, "");
    forall q ensures StoreAlike(AckAll(l, a).store, AckAll(l, b).store, q) {
      AckStoresAlike(l, a, b, q);
    }
  }

  lemma AckNext(l: Ledger, order: seq<MessageID>, i: nat, rest: map<MessageID, Entry>)
    requires Distinct(order) && i < |order| && forall id :: id in order ==> id in l.inFlight
    ensures AckAll(l, order[..i + 1]).(inFlight := rest)
         == BuryEntry(AckAll(l, order[..i]).(inFlight := rest), l.inFlight[order[i]])
  {
    var init := order[..i];
    assert order[..i + 1][..i] == init;
    assert order[i] !in init;
    AckAllInFlight(l, init);
    assert AckAll(l, init).inFlight[order[i]] == l.inFlight[order[i]];
  }

  function TimedOut(threshold: Instant): Entry -> bool { (e: Entry) => e.msg.dispatchedAt < threshold }

  function ExpiredLetter(cutoff: Instant): Entry -> bool {
    (e: Entry) => IsDlqQueue(e.msg.queue) && e.msg.enqueueTime < cutoff
  }

  /** Listed are the old messages on queues whose names end in the suffix, written out. */
  lemma LettersListed(order: seq<MessageID>, inFlight: map<MessageID, Entry>, cutoff: Instant)
    requires Lists(order, inFlight, ExpiredLetter(cutoff))
    ensures forall id :: id in inFlight ==> var m := inFlight[id].msg;
      (id in order <==> (exists p: Queue :: m.queue == p + ".dlq") && m.enqueueTime < cutoff)
  {
    forall id | id in inFlight
      ensures var m := inFlight[id].msg; id in order <==> (exists p: Queue :: m.queue == p + ".dlq") && m.enqueueTime < cutoff
    {
      IsDlqExactly(inFlight[id].msg.queue);
    }
  }

  /** An expiry changes neither topic nor log of a main queue. */
  lemma MainSpared(l: Ledger, order: seq<MessageID>, cutoff: Instant, q: Queue)
    requires Lists(order, l.inFlight, ExpiredLetter(cutoff)) && !IsDlqQueue(q)
    ensures Untouched(l.store, AckAll(l, order).store, q)
  {
    OthersKept(l, order, q);
  }

  lemma {:induction false} OthersKept(l: Ledger, order: seq<MessageID>, q: Queue)
    requires Distinct(order) && forall id :: id in order ==> id in l.inFlight && l.inFlight[id].msg.queue != q
    ensures Untouched(l.store, AckAll(l, order).store, q)
  {
    if order != [] {
      var init, last := order[..|order| - 1], order[|order| - 1];
      assert order == init + [last] && last !in init;
      OthersKept(l, init, q);
      AckAllInFlight(l, init);
    }
  }

  class AckManager {
    var inFlight: map<MessageID, Entry>
    const manager: Manager
    const registry: Registry
    const maxRetries: int32

    constructor (manager: Manager, registry: Registry, maxRetries: int32)
      ensures inFlight == map[] && this.manager == manager && this.registry == registry && this.maxRetries == maxRetries
    {
      this.manager, this.registry, this.maxRetries, inFlight := manager, registry, maxRetries, map[];
    }

    function View(): Ledger reads this, manager, registry, registry.byID.Values {
      Ledger(inFlight, registry.Counts(), manager.View())
    }

    ghost predicate Valid() reads this, registry { registry.Valid() && forall id :: id in inFlight ==> inFlight[id].msg.id == id }

    /** A second registration of an ID replaces the first. */
    method Register(m: Message, consumer: ConsumerID)
      requires Valid()
      modifies this
      ensures Valid() && View() == old(View()).(inFlight := old(inFlight)[m.id := Entry(m, consumer)])
    {
      inFlight := inFlight[m.id := Entry(m, consumer)];
    }

    method Unregister(id: MessageID)
      requires Valid()
      modifies this, registry.byID.Values`inFlight
      ensures Valid()
      ensures View() == Unregistered(old(View()), id)
    {
      if id !in inFlight { return; }
      var e := inFlight[id];
      inFlight := inFlight - {id};
      assert View() == old(View()).(inFlight := old(inFlight) - {id});
      registry.AddInFlight(e.consumer, -1);
    }

    /** The tail of an acknowledgement, once the entry has left the map. */
    method Bury(e: Entry) returns (ok: bool)
      requires registry.Valid()
      modifies manager, registry.byID.Values`inFlight
      ensures View() == BuryEntry(old(View()), e)
      ensures ok <==> Writable(old(manager.View()), e.msg.queue)
    {
      registry.AddInFlight(e.consumer, -1);
      ok := manager.WriteTombstone(e.msg.id, e.msg.queue);
    }

    method Ack(id: MessageID) returns (ok: bool)
      requires Valid()
      modifies this, manager, registry.byID.Values`inFlight
      ensures Valid() && View() == AckedBy(old(View()), id)
      ensures ok <==> id in old(inFlight) ==> Writable(old(manager.View()), old(inFlight)[id].msg.queue)
    {
      if id !in inFlight { return true; }
      var e := inFlight[id];
      inFlight := inFlight - {id};
      assert View() == old(View()).(inFlight := old(inFlight) - {id});
      ok := Bury(e);
    }

    /**
     The message that goes back is the retry, which keeps queue and clock and is pending again, or the dead letter, one
     level down, with a new clock and marked dead.
     */
    method PutBack(m: Message, now: Instant) returns (back: Message)
      ensures m.retryCount < maxRetries ==> back == m.(retryCount := m.retryCount + 1, status := Pending)
      ensures m.retryCount >= maxRetries ==> back == m.(queue := m.queue + ".dlq", enqueueTime := now, status := Dead)
      ensures back == AfterNack(m, maxRetries, now)
    {
      if m.retryCount >= maxRetries {
        back := m.(queue := m.queue + DLQ_SUFFIX, enqueueTime := now, status := Dead);
      } else {
        back := WithRetry(m);
      }
    }

    method ProcessNack(e: Entry, now: Instant) returns (ok: bool)
      requires registry.Valid()
      modifies manager, registry.byID.Values`inFlight
      ensures View() == NackEntry(old(View()), e, maxRetries, now)
      ensures ok <==> Accepts(old(manager.View()), AfterNack(e.msg, maxRetries, now).queue)
    {
      registry.AddInFlight(e.consumer, -1);
      ghost var counts := registry.Counts();
      var back := PutBack(e.msg, now);
      ok := manager.Enqueue(back);
      assert registry.Counts() == counts;
    }

    method Nack(id: MessageID, now: Instant) returns (ok: bool)
      requires Valid()
      modifies this, manager, registry.byID.Values`inFlight
      ensures Valid() && View() == NackedBy(old(View()), id, maxRetries, now)
      ensures ok <==> id in old(inFlight) ==>
        Accepts(old(manager.View()), AfterNack(old(inFlight)[id].msg, maxRetries, now).queue)
    {
      if id !in inFlight { return true; }
      var e := inFlight[id];
      inFlight := inFlight - {id};
      assert View() == old(View()).(inFlight := old(inFlight) - {id});
      ok := ProcessNack(e, now);
    }

    /** The locked part of both scans: walk the map, collect and delete the entries that match. */
    method TakeAll(pick: Entry -> bool) returns (taken: seq<Entry>, ghost order: seq<MessageID>)
      requires Valid()
      modifies this
      ensures Valid() && Lists(order, old(inFlight), pick)
      ensures |taken| == |order| && forall i :: 0 <= i < |order| ==> order[i] in old(inFlight) && taken[i] == old(inFlight)[order[i]]
      ensures inFlight == old(inFlight) - set id | id in order
    {
      taken, order := [], [];
      var todo := inFlight.Keys;
      while todo != {}
        invariant todo <= old(inFlight).Keys && Valid()
        invariant Distinct(order)
        invariant forall id :: id in order <==> id in old(inFlight) && id !in todo && pick(old(inFlight)[id])
        invariant |taken| == |order|
        invariant forall i :: 0 <= i < |order| ==> order[i] in old(inFlight) && taken[i] == old(inFlight)[order[i]]
        invariant inFlight == old(inFlight) - set id | id in order
        decreases todo
      {
        var id :| id in todo;
        assert id in inFlight && inFlight[id] == old(inFlight)[id];
        if pick(inFlight[id]) {
          taken := taken + [inFlight[id]];
          order := order + [id];
          inFlight := inFlight - {id};
        }
        todo := todo - {id};
      }
    }

    /** The unlocked part of the timeout scan. */
    method ProcessAll(taken: seq<Entry>, ghost start: Ledger, ghost order: seq<MessageID>, clock: MessageID -> Instant)
      returns (ok: bool)
      requires Valid() && Keyed(start) && Distinct(order) && |taken| == |order|
      requires forall i :: 0 <= i < |order| ==> order[i] in start.inFlight && taken[i] == start.inFlight[order[i]]
      requires View() == start.(inFlight := inFlight)
      modifies manager, registry.byID.Values`inFlight
      ensures Valid() && View() == NackAll(start, order, maxRetries, clock).(inFlight := inFlight)
      ensures ok <==> forall i :: 0 <= i < |order| ==> Accepts(start.store, Returned(start, order[i], maxRetries, clock).queue)
    {
      ok := true;
      for i := 0 to |taken|
        invariant Valid()
        invariant View() == NackAll(start, order[..i], maxRetries, clock).(inFlight := inFlight)
        invariant ok <==> forall j :: 0 <= j < i ==> Accepts(start.store, Returned(start, order[j], maxRetries, clock).queue)
      {
        ghost var mid := View();
        var done := ProcessNack(taken[i], clock(taken[i].msg.id));
        NackNext(start, order, i, maxRetries, clock, mid, View());
        ok := ok && done;
      }
      assert order[..|order|] == order;
    }

    /**
     Exactly the entries older than the threshold leave the map, and the whole effect is that of single negative
     outcomes for them, one at a time, in whatever order they are listed. It succeeds when every return does.
     */
    method ScanAndTimeout(threshold: Instant, clock: MessageID -> Instant) returns (ok: bool, ghost order: seq<MessageID>)
      requires Valid()
      modifies this, manager, registry.byID.Values`inFlight
      ensures Valid() && Lists(order, old(inFlight), TimedOut(threshold))
      ensures forall id :: id in inFlight ==> id in old(inFlight) && inFlight[id] == old(inFlight)[id]
      ensures forall id :: id in old(inFlight) ==> (id !in inFlight <==> old(inFlight)[id].msg.dispatchedAt < threshold)
      ensures View() == NackAll(old(View()), order, maxRetries, clock)
      ensures forall other :: Lists(other, old(inFlight), TimedOut(threshold)) ==>
        Alike(View(), NackAll(old(View()), other, maxRetries, clock))
      ensures ok <==> forall i :: 0 <= i < |order| ==>
        Accepts(old(manager.View()), Returned(old(View()), order[i], maxRetries, clock).queue)
    {
      var taken;
      ghost var start := View();
      taken, order := TakeAll(TimedOut(threshold));
      ok := ProcessAll(taken, start, order, clock);
      NackAllInFlight(start, order, maxRetries, clock);
      forall other | Lists(other, start.inFlight, TimedOut(threshold))
        ensures Alike(View(), NackAll(start, other, maxRetries, clock))
      {
        NackAnyOrder(start, order, other, maxRetries, clock);
      }
    }

    /** The unlocked part of the expiry scan. */
    method BuryAll(taken: seq<Entry>, ghost start: Ledger, ghost order: seq<MessageID>) returns (ok: bool)
      requires Valid() && Distinct(order) && |taken| == |order|
      requires forall i :: 0 <= i < |order| ==> order[i] in start.inFlight && taken[i] == start.inFlight[order[i]]
      requires View() == start.(inFlight := inFlight)
      modifies manager, registry.byID.Values`inFlight
      ensures Valid() && View() == AckAll(start, order).(inFlight := inFlight)
      ensures ok <==> forall i :: 0 <= i < |order| ==> Writable(start.store, taken[i].msg.queue)
    {
      ok := true;
      for i := 0 to |taken|
        invariant Valid()
        invariant View() == AckAll(start, order[..i]).(inFlight := inFlight)
        invariant ok <==> forall j :: 0 <= j < i ==> Writable(start.store, taken[j].msg.queue)
      {
        AckNext(start, order, i, inFlight);
        AckAllWritable(start, order[..i], taken[i].msg.queue);
        var done := Bury(taken[i]);
        ok := ok && done;
      }
      assert order[..|order|] == order;
    }

    /**
     Exactly the expired dead letters leave the map, each as if acknowledged, in whatever order they are listed. It
     succeeds when every tombstone is written.
     */
    method ExpireDlqInFlight(cutoff: Instant) returns (n: nat, ok: bool, ghost order: seq<MessageID>)
      requires Valid()
      modifies this, manager, registry.byID.Values`inFlight
      ensures Valid() && Lists(order, old(inFlight), ExpiredLetter(cutoff)) && n == |order|
      ensures forall id :: id in inFlight ==> id in old(inFlight) && inFlight[id] == old(inFlight)[id]
      ensures forall id :: id in old(inFlight) ==> var m := old(inFlight)[id].msg;
        (id !in inFlight <==> (exists p: Queue :: m.queue == p + ".dlq") && m.enqueueTime < cutoff)
      ensures forall q :: !IsDlqQueue(q) ==> Untouched(old(manager.View()), manager.View(), q)
      ensures View() == AckAll(old(View()), order)
      ensures forall other :: Lists(other, old(inFlight), ExpiredLetter(cutoff)) ==>
        Alike(View(), AckAll(old(View()), other))
      ensures ok <==> forall i :: 0 <= i < |order| ==> Writable(old(manager.View()), old(inFlight)[order[i]].msg.queue)
    {
      var taken;
      ghost var start := View();
      taken, order := TakeAll(ExpiredLetter(cutoff));
      n := |taken|;
      ok := BuryAll(taken, start, order);
      AckAllInFlight(start, order);
      LettersListed(order, start.inFlight, cutoff);
      forall q | !IsDlqQueue(q) ensures Untouched(start.store, manager.View(), q) { MainSpared(start, order, cutoff, q); }
      forall other | Lists(other, start.inFlight, ExpiredLetter(cutoff)) ensures Alike(View(), AckAll(start, other)) {
        AckAnyOrder(start, order, other);
      }
    }
  }
}
