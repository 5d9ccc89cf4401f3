/** Runs that attain the bounds and show where the documentation promises more than the code keeps. */
module Witnesses {
  import opened Core
  import opened Wire
  import opened Log
  import opened Broker
  import opened Ownership
  import opened History
  import opened Safety
  import opened Beside
  import opened Sessions
  import opened Runs
  import opened Notes
  import opened Mail
  import opened Revival

  /** A broker just started on an empty directory. */
  ghost predicate Blank(s: State) {
    && s.torn == {} && !s.closing && !s.closed && s.tasks == map[] && s.removals == map[] && s.hands == map[]
    && s.logs == map[] && s.topics == map[] && s.issued == {} && s.dups == {} && s.buried == {} && s.delivered == multiset{}
    && s.landed == {} && s.mailboxes == map[] && !s.cancelled
  }

  lemma EmptyDirectory(maxRetries: int32) returns (start: State)
    ensures Initial(start) && Blank(start) && start.maxRetries == maxRetries
  {
    start := Boot(maxRetries, map[], {}, {}, {}, {}, {});
    assert PutPairs(start.logs) == {} && TombstonePairs(start.logs) == {} && LoggedIds(start.logs) == {};
    assert start.topics == map[];
  }

  lemma ReachesIsReachable(start: State, s: State) returns (steps: seq<Step>)
    requires Initial(start) && Reaches(start, s)
    ensures Reachable(s, start, steps)
  {
    steps :| PlainRun(start, steps, s);
  }

  lemma ReachesIsLazy(start: State, s: State)
    requires Initial(start) && Reaches(start, s)
    ensures LazyQueues(s)
  {
    var steps := ReachesIsReachable(start, s);
    ReachableIsGood(start, steps, s);
  }

  // ---------------------------------------------------------------------------
  // One message
  // ---------------------------------------------------------------------------

  /** Just published: the only message, in log and topic. */
  ghost predicate FirstPublished(s: State, m: Message) {
    && Calm(s) && s.dups == {} && s.buried == {} && s.delivered == multiset{}
    && m.id in s.home && s.home[m.id] == m.queue
    && s.logs == map[m.queue := [Put(m)]] && s.topics == map[m.queue := [m]]
  }

  lemma FirstAs(start: State, s1: State, s: State, m: Message)
    requires Blank(start) && s1.logs == map[] && s1.topics == map[] && s1.hands == map[] && s1.removals == map[]
    requires s1.torn == {} && !s1.closing && !s1.closed && s1.dups == {} && s1.buried == {} && s1.delivered == multiset{}
    requires s1.mailboxes == map[] && !s1.cancelled
    requires m.id in s1.home && s1.home[m.id] == m.queue && Enqueues(s1, s, m)
    ensures FirstPublished(s, m)
  {
    assert LogOf(s1, m.queue) == [] && Live([]) == [] && TopicIn(s1, m.queue) == [];
    assert [] + [m] == [m] && [] + [Put(m)] == [Put(m)];
  }

  lemma PublishFirst(start: State, m: Message) returns (s: State)
    requires Blank(start) && m.retryCount == 0
    ensures Reaches(start, s) && s.maxRetries == start.maxRetries && FirstPublished(s, m)
  {
    ReachesSelf(start);
    var s1 := DoPublish(start, m);
    Extend(start, start, SPublish(0, m), s1);
    s := Enter(start, s1, m);
    FirstAs(start, s1, s, m);
  }

  /** After `k` deliveries and rejections: still the only message, and every delivery counted. */
  ghost predicate Climbed(s: State, m0: Message, k: nat, m: Message) {
    && Calm(s) && m0.id in s.home && s.home[m0.id] == m0.queue
    && m.id == m0.id && HasForm(m, m0.queue, k, s.maxRetries)
    && m.queue in s.topics && s.topics[m.queue] == [m] && (forall p :: p in s.topics && p != m.queue ==> s.topics[p] == [])
    && forall p :: s.delivered[(p, m0.id)] == |Trail(m0.queue, k, p, s.maxRetries)|
  }

  lemma ClimbOne(s: State, s': State, m0: Message, k: nat, m: Message)
    requires k > 0 && Climbed(s, m0, k - 1, m) && LazyQueues(s) && BouncesAt(s, s', m.queue, 0)
    ensures Climbed(s', m0, k, Bounced(m, s.maxRetries))
  {
    NackAdvancesForm(Sent(m), m0.queue, k - 1, s.maxRetries, 0);
    assert Live([]) == [];
    assert s.topics[m.queue][1..] == [];
    forall p ensures s'.delivered[(p, m0.id)] == |Trail(m0.queue, k, p, s.maxRetries)| {
      assert s.delivered[(p, m0.id)] == |Trail(m0.queue, k - 1, p, s.maxRetries)|;
    }
  }

  lemma ClimbFirst(s: State, m: Message)
    requires FirstPublished(s, m) && m.retryCount == 0
    ensures Climbed(s, m, 0, m)
  {
  }

  lemma {:induction false} Climb(start: State, m0: Message, k: nat) returns (s: State, m: Message)
    requires Initial(start) && Blank(start) && m0.retryCount == 0
    ensures Reaches(start, s) && s.maxRetries == start.maxRetries && Climbed(s, m0, k, m)
  {
    if k == 0 {
      s := PublishFirst(start, m0);
      m := m0;
      ClimbFirst(s, m0);
    } else {
      var s1, m1 := Climb(start, m0, k - 1);
      s, m := ClimbStep(start, s1, m0, k, m1);
    }
  }

  lemma ClimbStep(start: State, s: State, m0: Message, k: nat, m: Message) returns (s': State, m': Message)
    requires Initial(start) && Reaches(start, s) && k > 0 && Climbed(s, m0, k - 1, m)
    ensures Reaches(start, s') && s'.maxRetries == s.maxRetries && Climbed(s', m0, k, m')
  {
    ReachesIsLazy(start, s);
    s' := Bounce(start, s, m.queue, 0);
    ClimbOne(s, s', m0, k, m);
    m' := Bounced(m, s.maxRetries);
  }

  /** How many deliveries of a message the broker allows on the dead-letter queue `d` levels below its home. */
  function Allowed(maxRetries: int32, d: nat): nat { if d == 0 then Budget(maxRetries) + 1 else 1 }

  lemma TrailLength(home: Queue, maxRetries: int32, depth: nat, d: nat)
    requires d <= depth
    ensures |Trail(home, Budget(maxRetries) + 1 + depth, DlqName(home, d), maxRetries)| == Allowed(maxRetries, d)
  {
    if d == 0 {
      TrailAtHome(home, Budget(maxRetries) + 1 + depth, maxRetries);
    } else {
      TrailOnDlq(home, Budget(maxRetries) + 1 + depth, d, maxRetries);
    }
  }

  /**
   The bound on deliveries is attained: for every message and every limit some run delivers it maxRetries + 1 times on
   its queue and once on each dead-letter queue, down to any depth, and consumers receive all of them.
   */
  lemma DeliveriesAttained(start: State, m: Message, depth: nat) returns (steps: seq<Step>, s: State)
    requires Initial(start) && Blank(start) && m.retryCount == 0
    ensures Reachable(s, start, steps) && m.id in s.home && s.home[m.id] == m.queue
    ensures forall d: nat :: d <= depth ==> s.delivered[(DlqName(m.queue, d), m.id)] == Allowed(s.maxRetries, d)
    ensures forall d: nat :: d <= depth ==>
      |Listing(NotesOf(start, steps).received, DlqName(m.queue, d), m.id)| == Allowed(s.maxRetries, d)
  {
    var k, last := Budget(start.maxRetries) + 1 + depth, m;
    s, last := Climb(start, m, k);
    steps := ReachesIsReachable(start, s);
    ClimbedAll(s, m, k, depth, last);
    forall d: nat | d <= depth
      ensures |Listing(NotesOf(start, steps).received, DlqName(m.queue, d), m.id)| == Allowed(s.maxRetries, d)
    {
      AllReceived(start, steps, s, DlqName(m.queue, d), m.id);
    }
  }

  lemma ClimbedAll(s: State, m0: Message, k: nat, depth: nat, m: Message)
    requires Climbed(s, m0, k, m) && k == Budget(s.maxRetries) + 1 + depth
    ensures forall d: nat :: d <= depth ==> s.delivered[(DlqName(m0.queue, d), m0.id)] == Allowed(s.maxRetries, d)
  {
    forall d: nat | d <= depth ensures s.delivered[(DlqName(m0.queue, d), m0.id)] == Allowed(s.maxRetries, d) {
      TrailLength(m0.queue, s.maxRetries, depth, d);
    }
  }

  // ---------------------------------------------------------------------------
  // An acknowledgement changes memory first
  // ---------------------------------------------------------------------------

  lemma DoFail(s: State, m: Message) returns (s': State)
    requires s.tasks == map[0 := Burying(m)] && s.dups == {}
    ensures Next(s, SFailWrite(0)) == Some(s') && s'.logs == s.logs && s'.buried == s.buried
    ensures m.id in s'.owner && s'.owner[m.id] == Gone
  {
    s' := FailWrite(s, 0).value;
  }

  /** Every message can be acknowledged, be gone from memory, and have no tombstone: the next start replays it. */
  lemma AckedWithoutTombstone(start: State, m: Message) returns (steps: seq<Step>, s: State)
    requires Initial(start) && Blank(start) && m.retryCount == 0
    ensures Reachable(s, start, steps) && m.id in s.owner && s.owner[m.id] == Gone
    ensures s.buried == {} && m.id in Ids(Live(LogOf(s, m.queue)))
  {
    var s1 := PublishFirst(start, m);
    var s2 := DeliverAt(start, s1, m.queue, 0);
    var s3 := Outcome(start, s2, m.id, ByAck);
    s := DoFail(s3, Sent(m));
    Extend(start, s3, SFailWrite(0), s);
    steps := ReachesIsReachable(start, s);
    LiveOfPut(m);
  }

  lemma LiveOfPut(m: Message)
    ensures Live([Put(m)]) == [Stored(m)] && m.id in Ids(Live([Put(m)]))
  {
    OnePut(m);
    WithoutIrrelevant([Stored(m)], {});
    assert Stored(m) in Live([Put(m)]);
  }

  // ---------------------------------------------------------------------------
  // A directory on which a compaction can be noticed
  // ---------------------------------------------------------------------------

  /** What publishing, dead-lettering and acknowledging the dead letter leave in the two logs. */
  ghost predicate LeftOver(logs: map<Queue, seq<Record>>, m: Message, dead: Message) {
    && dead.id == m.id && dead.queue == m.queue + DLQ_SUFFIX
    && logs == map[m.queue := [Put(m)], m.queue + DLQ_SUFFIX := [Put(dead), Tombstone(m.id)]]
  }

  lemma BounceFirst(s: State, s': State, m: Message)
    requires FirstPublished(s, m) && m.retryCount >= s.maxRetries && BouncesAt(s, s', m.queue, 0)
    ensures var dead := Bounced(m, s.maxRetries);
      && dead.id == m.id && dead.queue == m.queue + DLQ_SUFFIX
      && dead.queue in s'.topics && s'.topics[dead.queue] == [dead]
      && s'.logs == map[m.queue := [Put(m)], dead.queue := [Put(dead)]]
  {
    var dead := Bounced(m, s.maxRetries);
    assert LogOf(s, dead.queue) == [] && Live([]) == [];
    assert [] + [dead] == [dead] && [] + [Put(dead)] == [Put(dead)];
  }

  lemma LeftAs(s: State, s': State, m: Message, dead: Message)
    requires dead.id == m.id && dead.queue == m.queue + DLQ_SUFFIX
    requires s.logs == map[m.queue := [Put(m)], dead.queue := [Put(dead)]]
    requires dead.queue in s.topics && s.topics[dead.queue] == [dead] && AcksAt(s, s', dead.queue, 0)
    ensures LeftOver(s'.logs, m, dead)
  {
    assert s'.logs[dead.queue] == [Put(dead), Tombstone(m.id)];
  }

  lemma LeaveOver(start: State, m: Message) returns (s: State, dead: Message)
    requires Blank(start) && m.retryCount == 0 && start.maxRetries <= 0
    ensures Reaches(start, s) && s.torn == {} && LeftOver(s.logs, m, dead)
  {
    var s0 := PublishFirst(start, m);
    var s1 := Bounce(start, s0, m.queue, 0);
    BounceFirst(s0, s1, m);
    dead := Bounced(m, s0.maxRetries);
    var dlq := dead.queue;
    s := AckAt(start, s1, dlq, 0);
    LeftAs(s1, s, m, dead);
  }

  lemma NoneLeft(m: Message, dead: set<MessageID>)
    requires m.id in dead
    ensures Without([m], dead) == []
  {
    assert [m][..0] == [];
  }

  lemma LeftOverLive(m: Message, dead: Message)
    requires dead.id == m.id
    ensures Live([Put(dead), Tombstone(m.id)]) == [] && Tombstoned([Put(dead), Tombstone(m.id)]) == {m.id}
  {
    var recs := [Put(dead), Tombstone(m.id)];
    assert recs == [Put(dead)] + [Tombstone(m.id)];
    OnePut(dead);
    TombstoneAddsNoMessage([Put(dead)], m.id);
    TombstonedAppend([Put(dead)], Tombstone(m.id));
    assert Messages(recs) == [Stored(dead)] && Tombstoned(recs) == {m.id};
    NoneLeft(Stored(dead), {m.id});
  }

  lemma LeftOverReplays(s: State, m: Message, dead: Message, q: Queue)
    requires LeftOver(s.logs, m, dead)
    ensures Live(LogOf(s, q)) == if q == m.queue then [Stored(m)] else []
  {
    LiveOfPut(m);
    LeftOverLive(m, dead);
    assert Live([]) == [];
  }

  lemma LeftOverIsUnclear(s: State, m: Message, dead: Message)
    requires LeftOver(s.logs, m, dead)
    ensures !ClearAtBoot(s)
  {
    LeftOverReplays(s, m, dead, m.queue);
    LeftOverLive(m, dead);
    assert DlqName(m.queue, 1) == DlqName(m.queue, 0) + DLQ_SUFFIX;
    assert Stored(m) in Live(LogOf(s, m.queue)) && m.id in Tombstoned(LogOf(s, DlqName(m.queue, 1)));
  }

  lemma LeftOverIsApart(s: State, m: Message, dead: Message)
    requires LeftOver(s.logs, m, dead)
    ensures ApartAtBoot(s)
  {
    forall q, d: nat, i, j, id | ReplayedAt(s, q, i, id) && ReplayedAt(s, DlqName(q, d), j, id) ensures d == 0 && i == j {
      LeftOverReplays(s, m, dead, q);
      LeftOverReplays(s, m, dead, DlqName(q, d));
      DlqNameLength(q, d);
    }
  }

  lemma StartAgain(start: State, s: State) returns (steps: seq<Step>, boot: State)
    requires Initial(start) && Reaches(start, s)
    ensures Reachable(boot, start, steps) && Booted(boot) && boot.logs == s.logs && boot.torn == s.torn
  {
    var past := ReachesIsReachable(start, s);
    var step := SRestart(map[], s.maxRetries);
    RunOne(start, past, s, step);
    steps, boot := past + [step], Restart(s, map[], s.maxRetries);
    assert Next(s, step) == Some(boot);
    assert s.torn + {} == s.torn;
  }

  /**
   A broker that starts on an empty directory without retries, publishes one message, dead-letters it, acknowledges the
   dead letter and starts again: no ID is replayed twice, every log is clean, and yet a compaction can be noticed.
   */
  lemma LeftOverIsNoticed(start: State, m: Message) returns (steps: seq<Step>, boot: State)
    requires Initial(start) && Blank(start) && m.retryCount == 0 && start.maxRetries <= 0
    ensures Reachable(boot, start, steps) && Booted(boot) && boot.torn == {}
    ensures ApartAtBoot(boot) && !ClearAtBoot(boot) && !HidesCompaction(boot)
  {
    var s, dead := LeaveOver(start, m);
    steps, boot := StartAgain(start, s);
    LeftOverIsUnclear(boot, m, dead);
    LeftOverIsApart(boot, m, dead);
    CompactionHiddenExactly(start, steps, boot);
  }

  // ---------------------------------------------------------------------------
  // Compacting a torn log
  // ---------------------------------------------------------------------------

  /** A publish that ends in a short write. */
  lemma TearLog(boot: State, m: Message) returns (s: State)
    requires Booted(boot) && m.id !in boot.issued && m.retryCount == 0
    ensures Reaches(boot, s) && Compactable(s, m.queue) && m.queue in s.torn
    ensures s.tasks == map[] && !s.closing && s.issued == boot.issued + {m.id}
  {
    ReachesSelf(boot);
    var s1 := DoPublish(boot, m);
    Extend(boot, boot, SPublish(0, m), s1);
    var s2 := DoInitQueue(s1, m);
    Extend(boot, s1, SInitQueue(0), s2);
    s := DoFailShort(s2, m, 1);
    Extend(boot, s2, SFailShort(0, 1), s);
  }

  lemma AppendsOne(s: State, steps: seq<Step>, s1: State, step: Step, s2: State, q: Queue)
    requires Appends(s, steps, s1, q) && AppendsOnly(step, q) && Next(s1, step) == Some(s2)
    ensures Appends(s, steps + [step], s2, q)
    ensures Attempted(s, steps + [step], q) == TallyStep(Attempted(s, steps, q), s1, step, q)
  {
    RunOne(s, steps, s1, step);
    AttemptedOne(s, steps, s1, step, q);
    assert forall i :: 0 <= i < |steps + [step]| ==> (steps + [step])[i] == if i < |steps| then steps[i] else step;
  }

  /** A publish on the torn log, written behind the tail. */
  lemma PublishTorn(s: State, m: Message) returns (steps: seq<Step>, s': State)
    requires Compactable(s, m.queue) && m.queue in s.torn && s.tasks == map[] && !s.closing
    requires m.id !in s.issued && m.retryCount == 0
    ensures Appends(s, steps, s', m.queue) && Attempted(s, steps, m.queue).recs == [Put(m)]
  {
    var q := m.queue;
    var s1 := DoPublish(s, m);
    AppendsOne(s, [], s, SPublish(0, m), s1, q);
    steps := [] + [SPublish(0, m)];
    var s2 := DoInitQueue(s1, m);
    AppendsOne(s, steps, s1, SInitQueue(0), s2, q);
    steps := steps + [SInitQueue(0)];
    s' := DoSwallow(s2, m);
    AppendsOne(s, steps, s2, SWriteRecord(0), s', q);
    steps := steps + [SWriteRecord(0)];
  }

  /**
   On a torn log no session hides compaction: after any startup, a publish that ends in a short write tears the log, and
   whether it is compacted then decides whether the next publish is replayed.
   */
  lemma TornCompactionShows(boot: State, m0: Message, m1: Message) returns (past: seq<Step>, s: State, steps: seq<Step>, s': State)
    requires Booted(boot) && m0.id !in boot.issued && m1.id !in boot.issued && m0.id != m1.id
    requires m0.retryCount == 0 && m1.retryCount == 0 && m0.queue == m1.queue
    ensures Session(boot, past, s) && Compactable(s, m0.queue) && m0.queue in s.torn
    ensures Appends(s, steps, s', m0.queue) && !Hidden(s, steps, s', m0.queue)
  {
    s := TearLog(boot, m0);
    past :| PlainRun(boot, past, s);
    steps, s' := PublishTorn(s, m1);
    HiddenOnTorn(s, steps, s', m0.queue);
    LiveOfPut(m1);
  }
}
