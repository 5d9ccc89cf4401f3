/**
 The converse of `Sessions`: when startup replays a message with a tombstone below its queue, or two copies of an ID of
 which one can sink to where the other is tombstoned, some run does so, and a compaction before it can be noticed.
 Dead-lettering never tombstones the source log, so a broker reaches such logs by itself.
 */
module Revival {
  import opened Core
  import opened Wire
  import opened Log
  import opened Broker
  import opened Ownership
  import opened Safety
  import opened Beside
  import opened Sessions
  import opened Runs

  /** From `s` to `s'` the log of `q` gained message records only, one of them of `id`. */
  ghost predicate Regains(s: State, s': State, q: Queue, id: MessageID, suffix: seq<Record>) {
    LogOf(s', q) == LogOf(s, q) + suffix && Tombstoned(suffix) == {} && id in Ids(Messages(suffix))
  }

  /** What the log of `q` gains from the record of `m`. */
  function Gain(m: Message, q: Queue): seq<Record> { if m.queue == q then [Put(m)] else [] }

  lemma GainOf(s: State, s': State, m: Message, q: Queue)
    requires s'.logs == s.logs[m.queue := LogOf(s, m.queue) + [Put(m)]]
    ensures LogOf(s', q) == LogOf(s, q) + Gain(m, q) && Tombstoned(Gain(m, q)) == {}
    ensures m.queue == q ==> m.id in Ids(Messages(Gain(m, q)))
  {
    OnePut(m);
    assert Stored(m) in Messages([Put(m)]);
  }

  lemma Joins(a: seq<Record>, b: seq<Record>, id: MessageID)
    requires Tombstoned(a) == {} && Tombstoned(b) == {} && id in Ids(Messages(b))
    ensures Tombstoned(a + b) == {} && id in Ids(Messages(a + b))
  {
    MessagesConcat(a, b);
    TombstonedConcat(a, b);
  }

  lemma RegainsMore(s: State, s1: State, s': State, q: Queue, id: MessageID, gain: seq<Record>, tail: seq<Record>)
    requires LogOf(s1, q) == LogOf(s, q) + gain && Tombstoned(gain) == {} && Regains(s1, s', q, id, tail)
    ensures Regains(s, s', q, id, gain + tail)
  {
    Joins(gain, tail, id);
  }

  // ---------------------------------------------------------------------------
  // Sinking to any dead-letter level
  // ---------------------------------------------------------------------------

  function RetriesLeft(m: Message, maxRetries: int32): nat {
    if m.retryCount < maxRetries then maxRetries - m.retryCount else 0
  }

  /** A rejected message has fewer retries left or is one level down; the levels below stay where they are. */
  lemma Rejected(m0: Message, maxRetries: int32, d: nat)
    requires d > 0
    ensures var m := Bounced(m0, maxRetries);
      && m.id == m0.id
      && (m.queue == m0.queue <==> RetriesLeft(m0, maxRetries) > 0)
      && (m.queue == m0.queue ==> RetriesLeft(m, maxRetries) < RetriesLeft(m0, maxRetries))
      && (m.queue != m0.queue ==> m.queue == m0.queue + DLQ_SUFFIX && DlqName(m.queue, d - 1) == DlqName(m0.queue, d))
  {
    DlqNameBelow(m0.queue, d - 1);
  }

  /** The message at position `i` of its own topic, `d` levels above `deep`. */
  ghost predicate Above(s: State, q: Queue, i: nat, d: nat, deep: Queue) {
    q in s.topics && i < |s.topics[q]| && s.topics[q][i].queue == q && d > 0 && deep == DlqName(q, d)
  }

  /** One rejection, seen from the log of `deep`: the message is there, or closer to it. */
  lemma RejectOnce(start: State, s: State, q: Queue, i: nat, d: nat, deep: Queue)
    returns (s': State, q': Queue, i': nat, d': nat, gain: seq<Record>)
    requires Reaches(start, s) && Calm(s) && Above(s, q, i, d, deep)
    ensures Reaches(start, s') && Calm(s') && s'.maxRetries == s.maxRetries
    ensures LogOf(s', deep) == LogOf(s, deep) + gain && Tombstoned(gain) == {}
    ensures d' == 0 ==> s.topics[q][i].id in Ids(Messages(gain))
    ensures d' > 0 ==> Above(s', q', i', d', deep) && s'.topics[q'][i'].id == s.topics[q][i].id
    ensures d' > 0 ==> d' < d || (d' == d && RetriesLeft(s'.topics[q'][i'], s.maxRetries) < RetriesLeft(s.topics[q][i], s.maxRetries))
  {
    var m := Bounced(s.topics[q][i], s.maxRetries);
    s' := Bounce(start, s, q, i);
    Rejected(s.topics[q][i], s.maxRetries, d);
    q', i', d', gain := m.queue, |s'.topics[m.queue]| - 1, if m.queue == q then d else d - 1, Gain(m, deep);
    GainOf(s, s', m, deep);
  }

  /** Some run rejects the message until its record is appended `d` dead-letter levels down. */
  lemma {:induction false} Sink(start: State, s: State, q: Queue, i: nat, d: nat, deep: Queue)
    returns (s': State, suffix: seq<Record>)
    requires Reaches(start, s) && Calm(s) && Above(s, q, i, d, deep)
    ensures Reaches(start, s') && Regains(s, s', deep, s.topics[q][i].id, suffix)
    decreases d, RetriesLeft(s.topics[q][i], s.maxRetries)
  {
    var s1, q', i', d', gain := RejectOnce(start, s, q, i, d, deep);
    if d' == 0 {
      s', suffix := s1, gain;
    } else {
      var tail;
      s', tail := Sink(start, s1, q', i', d', deep);
      suffix := gain + tail;
      RegainsMore(s, s1, s', deep, s.topics[q][i].id, gain, tail);
    }
  }

  // ---------------------------------------------------------------------------
  // From a run to a compaction that can be noticed
  // ---------------------------------------------------------------------------

  /** At `s1` the log of `q` is clean and holds a tombstone of `id`; at `s2` a record of `id` follows it. */
  ghost predicate Revived(boot: State, s1: State, s2: State, q: Queue, id: MessageID, suffix: seq<Record>) {
    && Reaches(boot, s1) && Compactable(s1, q) && q !in s1.torn
    && Reaches(s1, s2) && id in Tombstoned(LogOf(s1, q)) && Regains(s1, s2, q, id, suffix)
  }

  /** Some compaction of a clean log in the session can be noticed later in it. */
  ghost predicate Shows(boot: State) {
    exists past, s, steps, s', q ::
      Session(boot, past, s) && Compactable(s, q) && q !in s.torn && Appends(s, steps, s', q) && !Hidden(s, steps, s', q)
  }

  lemma RevivedIsNoticed(boot: State, s1: State, s2: State, q: Queue, id: MessageID, suffix: seq<Record>)
    requires Revived(boot, s1, s2, q, id, suffix)
    ensures Shows(boot)
  {
    var past :| PlainRun(boot, past, s1);
    var steps :| PlainRun(s1, steps, s2);
    assert Session(boot, past, s1) && Appends(s1, steps, s2, q);
    assert Resurrects(LogOf(s1, q), suffix);
    HiddenExactly(s1, steps, s2, q, suffix);
  }

  lemma BootIsCalm(boot: State, q: Queue, m: Message)
    requires Booted(boot) && Routed(boot) && boot.torn == {} && m in Live(LogOf(boot, q))
    ensures Reaches(boot, boot) && Calm(boot) && q in boot.topics && boot.topics[q] == Live(LogOf(boot, q)) && m.queue == q
  {
    ReachesSelf(boot);
    assert q in boot.logs;
  }

  lemma UnclearIsNoticed(boot: State)
    requires Booted(boot) && Routed(boot) && boot.torn == {} && !ClearAtBoot(boot)
    ensures Shows(boot)
  {
    var q, m, d: nat :| m in Live(LogOf(boot, q)) && d > 0 && m.id in Tombstoned(LogOf(boot, DlqName(q, d)));
    BootIsCalm(boot, q, m);
    var i :| 0 <= i < |boot.topics[q]| && boot.topics[q][i] == m;
    assert DlqName(q, d) in boot.logs;
    var s, suffix := Sink(boot, boot, q, i, d, DlqName(q, d));
    RevivedIsNoticed(boot, boot, s, DlqName(q, d), m.id, suffix);
  }

  lemma AckedLog(s: State, s': State, q: Queue, i: nat)
    requires q in s.topics && i < |s.topics[q]| && AcksAt(s, s', q, i)
    ensures s.topics[q][i].id in Tombstoned(LogOf(s', q))
  {
    TombstonedAppend(LogOf(s, q), Tombstone(s.topics[q][i].id));
  }

  /** One copy is acknowledged where it is; the other, on a queue above, sinks to that log. */
  lemma AboveIsNoticed(boot: State, s: State, q: Queue, i: nat, d: nat, j: nat)
    requires Reaches(boot, s) && Calm(s) && Above(s, q, i, d, DlqName(q, d))
    requires DlqName(q, d) in s.topics && j < |s.topics[DlqName(q, d)]|
    requires s.topics[DlqName(q, d)][j].queue == DlqName(q, d) && s.topics[DlqName(q, d)][j].id == s.topics[q][i].id
    ensures Shows(boot)
  {
    var deep, id := DlqName(q, d), s.topics[q][i].id;
    DlqNameLength(q, d);
    var s1 := AckAt(boot, s, deep, j);
    AckedLog(s, s1, deep, j);
    ReachesSelf(s1);
    assert Above(s1, q, i, d, deep);
    var s2, suffix := Sink(s1, s1, q, i, d, deep);
    RevivedIsNoticed(boot, s1, s2, deep, id, suffix);
  }

  // ---------------------------------------------------------------------------
  // Two copies in one topic
  // ---------------------------------------------------------------------------

  /** Two messages of one ID at positions `i < j` of the topic of their queue. */
  ghost predicate Twins(s: State, q: Queue, i: nat, j: nat) {
    && q in s.topics && i < j < |s.topics[q]|
    && s.topics[q][i].queue == q && s.topics[q][j].queue == q && s.topics[q][i].id == s.topics[q][j].id
  }

  /** Rejected, the message at position `i` goes to a log that holds a tombstone of its ID. */
  ghost predicate Haunted(s: State, q: Queue, i: nat) {
    && q in s.topics && i < |s.topics[q]| && Bounced(s.topics[q][i], s.maxRetries).queue in s.topics
    && s.topics[q][i].id in Tombstoned(LogOf(s, Bounced(s.topics[q][i], s.maxRetries).queue))
  }

  /** A message is rejected into a log that holds a tombstone of its ID. */
  lemma BounceIsNoticed(boot: State, s: State, q: Queue, i: nat)
    requires Reaches(boot, s) && Calm(s) && Haunted(s, q, i)
    ensures Shows(boot)
  {
    var m := Bounced(s.topics[q][i], s.maxRetries);
    ReachesSelf(s);
    var s' := Bounce(s, s, q, i);
    GainOf(s, s', m, m.queue);
    RevivedIsNoticed(boot, s, s', m.queue, m.id, Gain(m, m.queue));
  }

  lemma TwinIsHaunted(s: State, s': State, q: Queue, i: nat, j: nat)
    requires Twins(s, q, i, j) && RetriesLeft(s.topics[q][j], s.maxRetries) > 0 && AcksAt(s, s', q, i)
    ensures Haunted(s', q, j - i - 1)
  {
    Rejected(s.topics[q][j], s.maxRetries, 1);
    AckedLog(s, s', q, i);
    assert s'.topics[q][j - i - 1] == s.topics[q][j];
  }

  /** The second has retries left: the first is acknowledged, then the second rejected. */
  lemma TwinRetries(boot: State, s: State, q: Queue, i: nat, j: nat)
    requires Reaches(boot, s) && Calm(s) && Twins(s, q, i, j) && RetriesLeft(s.topics[q][j], s.maxRetries) > 0
    ensures Shows(boot)
  {
    var k: nat := j - i - 1;
    var s' := AckAt(boot, s, q, i);
    TwinIsHaunted(s, s', q, i, j);
    BounceIsNoticed(boot, s', q, k);
  }

  /** After the first twin was dead-lettered, to position `l` of the topic below, the second is still on its queue. */
  ghost predicate TwinSunk(s: State, q: Queue, k: nat, l: nat) {
    && q in s.topics && k < |s.topics[q]| && s.topics[q][k].queue == q
    && q + DLQ_SUFFIX in s.topics && l < |s.topics[q + DLQ_SUFFIX]| && s.topics[q + DLQ_SUFFIX][l].queue == q + DLQ_SUFFIX
    && s.topics[q + DLQ_SUFFIX][l].id == s.topics[q][k].id && RetriesLeft(s.topics[q][k], s.maxRetries) == 0
  }

  lemma SunkAs(s: State, s': State, q: Queue, i: nat, j: nat) returns (k: nat, l: nat)
    requires Twins(s, q, i, j) && BouncesAt(s, s', q, i)
    requires RetriesLeft(s.topics[q][i], s.maxRetries) == 0 && RetriesLeft(s.topics[q][j], s.maxRetries) == 0
    ensures TwinSunk(s', q, k, l)
  {
    var x := Bounced(s.topics[q][i], s.maxRetries);
    Rejected(s.topics[q][i], s.maxRetries, 1);
    k, l := j - i - 1, |s'.topics[x.queue]| - 1;
    assert s'.topics[q] == s.topics[q][i + 1..] && s'.topics[x.queue][l] == x;
  }

  lemma SunkTwinIsHaunted(s: State, s': State, q: Queue, k: nat, l: nat)
    requires TwinSunk(s, q, k, l) && AcksAt(s, s', q + DLQ_SUFFIX, l)
    ensures Haunted(s', q, k)
  {
    Rejected(s.topics[q][k], s.maxRetries, 1);
    AckedLog(s, s', q + DLQ_SUFFIX, l);
    assert s'.topics[q] == s.topics[q];
  }

  lemma SunkTwinIsNoticed(boot: State, s: State, q: Queue, k: nat, l: nat)
    requires Reaches(boot, s) && Calm(s) && TwinSunk(s, q, k, l)
    ensures Shows(boot)
  {
    var s' := AckAt(boot, s, q + DLQ_SUFFIX, l);
    SunkTwinIsHaunted(s, s', q, k, l);
    BounceIsNoticed(boot, s', q, k);
  }

  /** Neither has: the first is dead-lettered and acknowledged there, then the second is dead-lettered. */
  lemma TwinsSink(boot: State, s: State, q: Queue, i: nat, j: nat)
    requires Reaches(boot, s) && Calm(s) && Twins(s, q, i, j)
    requires RetriesLeft(s.topics[q][i], s.maxRetries) == 0 && RetriesLeft(s.topics[q][j], s.maxRetries) == 0
    ensures Shows(boot)
  {
    var s' := Bounce(boot, s, q, i);
    var k, l := SunkAs(s, s', q, i, j);
    SunkTwinIsNoticed(boot, s', q, k, l);
  }

  lemma {:induction false} TwinsAreNoticed(boot: State, s: State, q: Queue, i: nat, j: nat)
    requires Reaches(boot, s) && Calm(s) && Twins(s, q, i, j)
    ensures Shows(boot)
    decreases RetriesLeft(s.topics[q][i], s.maxRetries) + RetriesLeft(s.topics[q][j], s.maxRetries)
  {
    var x, y := s.topics[q][i], s.topics[q][j];
    if RetriesLeft(y, s.maxRetries) > 0 {
      TwinRetries(boot, s, q, i, j);
    } else if RetriesLeft(x, s.maxRetries) == 0 {
      TwinsSink(boot, s, q, i, j);
    } else {
      Rejected(x, s.maxRetries, 1);
      var s0 := Bounce(boot, s, q, i);
      var last := |s0.topics[q]| - 1;
      assert s0.topics[q] == s.topics[q][i + 1..] + [Bounced(x, s.maxRetries)];
      assert s0.topics[q][j - i - 1] == y && s0.topics[q][last] == Bounced(x, s.maxRetries);
      TwinsAreNoticed(boot, s0, q, j - i - 1, last);
    }
  }

  lemma TogetherIsNoticed(boot: State)
    requires Booted(boot) && Routed(boot) && boot.torn == {} && !ApartAtBoot(boot)
    ensures Shows(boot)
  {
    var q, d: nat, i: nat, j: nat, id :|
      ReplayedAt(boot, q, i, id) && ReplayedAt(boot, DlqName(q, d), j, id) && !(d == 0 && i == j);
    BootIsCalm(boot, q, Live(LogOf(boot, q))[i]);
    BootIsCalm(boot, DlqName(q, d), Live(LogOf(boot, DlqName(q, d)))[j]);
    if d > 0 {
      AboveIsNoticed(boot, boot, q, i, d, j);
    } else if i < j {
      TwinsAreNoticed(boot, boot, q, i, j);
    } else {
      TwinsAreNoticed(boot, boot, q, j, i);
    }
  }

  /**
   In a session that starts on clean logs, compaction is invisible to every later replay if and only if startup replays
   no message with a tombstone below its queue, and no ID twice from one queue or from a queue and one below it.
   */
  lemma CompactionHiddenExactly(start: State, steps: seq<Step>, boot: State)
    requires Reachable(boot, start, steps) && Booted(boot) && boot.torn == {}
    ensures HidesCompaction(boot) <==> ClearAtBoot(boot) && ApartAtBoot(boot)
  {
    ReachableIsGood(start, steps, boot);
    if !ClearAtBoot(boot) {
      UnclearIsNoticed(boot);
    } else if !ApartAtBoot(boot) {
      TogetherIsNoticed(boot);
    } else {
      TidySessionHides(boot);
    }
  }
}
