/** Every message has one owner at every step of every run, and stays with its own queue. */
module Ownership {
  import opened Core
  import opened Wire
  import opened Log
  import opened Broker

  // ---------------------------------------------------------------------------
  // Messages stay with their queues, and queues with their logs
  // ---------------------------------------------------------------------------

  ghost predicate AllOn(ms: seq<Message>, q: Queue) { forall m :: m in ms ==> m.queue == q }

  /** A queue without a topic has an empty log. */
  ghost predicate LazyQueues(s: State) { forall q :: q !in s.topics ==> LogOf(s, q) == [] }

  ghost predicate TopicsRouted(topics: map<Queue, seq<Message>>) { forall q :: q in topics ==> AllOn(topics[q], q) }

  /** The dispatcher of a queue holds a message of that queue that it has not registered yet. */
  predicate InHand(pc: Pc) { pc.Holding? || pc.Choosing? || pc.Charged? }

  ghost predicate HandsRouted(hands: map<Queue, Pc>) {
    forall q :: q in hands && InHand(hands[q]) ==> hands[q].msg.queue == q
  }

  ghost predicate WritersOpen(s: State) {
    forall t :: t in s.tasks && (s.tasks[t].Ready? || s.tasks[t].Logged?) ==> s.tasks[t].msg.queue in s.topics
  }

  /** Queue discipline: each place holds messages of its own queue. */
  ghost predicate Routed(s: State) {
    ProperLogs(s.logs) && LazyQueues(s) && TopicsRouted(s.topics) && HandsRouted(s.hands) && WritersOpen(s)
  }

  lemma {:induction false} ProperMessages(recs: seq<Record>, q: Queue)
    requires forall i :: 0 <= i < |recs| && IsPut(recs[i]) ==> recs[i].msg.value.queue == q
    ensures AllOn(Messages(recs), q)
  {
    if recs != [] {
      ProperMessages(recs[..|recs| - 1], q);
    }
  }

  lemma ProperLive(recs: seq<Record>, q: Queue)
    requires forall i :: 0 <= i < |recs| && IsPut(recs[i]) ==> recs[i].msg.value.queue == q
    ensures AllOn(Live(recs), q)
    ensures forall i :: 0 <= i < |Compacted(recs)| ==> Compacted(recs)[i].msg.value.queue == q
  {
    ProperMessages(recs, q);
    WithoutMembers(Messages(recs), Tombstoned(recs));
    assert forall i :: 0 <= i < |Live(recs)| ==> Live(recs)[i] in Live(recs);
  }

  lemma RoutedBoot(s: State)
    requires ProperLogs(s.logs)
    requires s == Boot(s.maxRetries, s.logs, s.torn, s.issued, s.known, s.landed, s.buried)
    ensures Routed(s)
  {
    forall q | q in s.topics ensures AllOn(s.topics[q], q) {
      ProperLive(s.logs[q], q);
    }
  }

  lemma WithQueueIsEmpty(s: State, q: Queue)
    requires LazyQueues(s)
    ensures WithQueue(s, q) == s || (q !in s.topics && WithQueue(s, q) == WithTopic(s, q, []))
  {
  }

  ghost predicate Writing(s: State, t: nat) { t in s.tasks && (s.tasks[t].Ready? || s.tasks[t].Logged?) }

  /** Logs, topics and hands are as before and no task has newly reached its writer. */
  lemma RoutedTasks(s: State, s': State)
    requires Routed(s) && s'.logs == s.logs && s'.topics == s.topics && s'.hands == s.hands
    requires forall t :: Writing(s', t) ==> Writing(s, t) && s'.tasks[t].msg.queue == s.tasks[t].msg.queue
    ensures Routed(s')
  {
    forall t | Writing(s', t) ensures s'.tasks[t].msg.queue in s'.topics { assert Writing(s, t); }
  }

  lemma RoutedHand(s: State, s': State, q: Queue, pc: Pc)
    requires Routed(s) && s'.logs == s.logs && s'.topics == s.topics && s'.tasks == s.tasks
    requires s'.hands == s.hands[q := pc] && (InHand(pc) ==> pc.msg.queue == q)
    ensures Routed(s')
  {
  }

  /** One initialised queue's log is rewritten with records of its own. */
  lemma RoutedLog(s: State, s': State, q: Queue)
    requires Routed(s) && q in s.topics && s'.topics == s.topics && s'.hands == s.hands
    requires q in s'.logs && s'.logs == s.logs[q := s'.logs[q]]
    requires forall i :: 0 <= i < |s'.logs[q]| && IsPut(s'.logs[q][i]) ==> s'.logs[q][i].msg.value.queue == q
    requires forall t :: Writing(s', t) ==> Writing(s, t) && s'.tasks[t].msg.queue == s.tasks[t].msg.queue
    ensures Routed(s')
  {
    forall t | Writing(s', t) ensures s'.tasks[t].msg.queue in s'.topics { assert Writing(s, t); }
  }

  lemma RoutedLandRecord(s: State, t: nat, s': State)
    requires Routed(s) && IsReady(s, t) && s' == LandRecord(s, t)
    ensures Routed(s')
  {
    RoutedLog(s, s', s.tasks[t].msg.queue);
  }

  lemma RoutedLandTombstone(s: State, t: nat, s': State)
    requires Routed(s) && IsBurying(s, t) && s' == LandTombstone(s, t)
    ensures Routed(s')
  {
    RoutedLog(s, s', s.tasks[t].msg.queue);
  }

  lemma RoutedEnterTopic(s: State, t: nat, s': State)
    requires Routed(s) && EnterTopic(s, t) == Some(s')
    ensures Routed(s')
  {
  }

  lemma RoutedDequeue(s: State, q: Queue, s': State)
    requires Routed(s) && Dequeue(s, q) == Some(s')
    ensures Routed(s')
  {
  }

  lemma RoutedExpirePending(s: State, q: Queue, i: nat, cutoff: Instant, t: nat, s': State)
    requires Routed(s) && ExpirePending(s, q, i, cutoff, t) == Some(s')
    ensures Routed(s')
  {
  }

  // ---------------------------------------------------------------------------
  // Single ownership
  // ---------------------------------------------------------------------------

  /** The place really has the message. */
  ghost predicate Holds(s: State, p: Place, id: MessageID) {
    match p
    case AtTask(t) => t in s.tasks && s.tasks[t].msg.id == id
    case AtRemoval(r) => r in s.removals && s.removals[r].entry.msg.id == id
    case AtTopic(q) => q in s.topics && id in Ids(s.topics[q])
    case AtHand(q) => q in s.hands && InHand(s.hands[q]) && s.hands[q].msg.id == id
    case AtFlight => id in s.inFlight
    case Gone => false
  }

  /** Every holder of an ID that is unique in memory is its recorded owner. */
  ghost predicate HoldersOwn(s: State) {
    forall p, id :: Holds(s, p, id) && id !in s.dups ==> id in s.owner && s.owner[id] == p
  }

  ghost predicate OwnersHold(s: State) {
    forall id :: id in s.owner && s.owner[id] != Gone ==> Holds(s, s.owner[id], id)
  }

  /** Within a topic an ID that is unique in memory occurs once. */
  ghost predicate TopicsDistinct(s: State) {
    forall q, i, j :: q in s.topics && 0 <= i < j < |s.topics[q]| && s.topics[q][i].id == s.topics[q][j].id ==>
      s.topics[q][i].id in s.dups
  }

  ghost predicate Recorded(s: State) {
    s.owner.Keys !! s.dups && s.owner.Keys <= s.issued && s.dups <= s.issued
  }

  ghost predicate FlightKeyed(s: State) { forall id :: id in s.inFlight ==> s.inFlight[id].msg.id == id }

  /** The IDs in memory, other than duplicates replayed from the logs, are where the history says and only there. */
  ghost predicate Placed(s: State) { HoldersOwn(s) && OwnersHold(s) && Recorded(s) }

  ghost predicate Owned(s: State) { Placed(s) && TopicsDistinct(s) && FlightKeyed(s) }

  /** Moving one message from place `a` to place `b` keeps ownership, whatever else the step does. */
  lemma OwnedMove(s: State, s': State, x: MessageID, a: Place, b: Place)
    requires Placed(s)
    requires s'.dups == s.dups && s'.owner == Moved(s, x, b) && s.issued <= s'.issued
    requires Holds(s, a, x) || (x !in s.issued && x in s'.issued)
    requires forall p, id :: Holds(s', p, id) && id !in s.dups && !(p == b && id == x) ==>
      Holds(s, p, id) && !(p == a && id == x)
    requires forall p, id :: Holds(s, p, id) && id != x ==> Holds(s', p, id)
    requires b != Gone ==> Holds(s', b, x)
    ensures Placed(s')
  {
  }

  lemma OwnedStay(s: State, s': State)
    requires Placed(s)
    requires s'.dups == s.dups && s'.owner == s.owner && s'.issued == s.issued
    requires forall p, id :: Holds(s', p, id) <==> Holds(s, p, id)
    ensures Placed(s')
  {
  }

  /** The task keeps its message. */
  lemma OwnedTaskKept(s: State, s': State, t: nat)
    requires Placed(s)
    requires t in s.tasks && t in s'.tasks && s'.tasks == s.tasks[t := s'.tasks[t]]
    requires s'.tasks[t].msg.id == s.tasks[t].msg.id
    requires s'.removals == s.removals && s'.hands == s.hands && s'.inFlight == s.inFlight && s'.dups == s.dups
    requires s'.topics == s.topics && s'.issued == s.issued
    requires s'.owner == Moved(s, s.tasks[t].msg.id, AtTask(t))
    ensures Placed(s')
  {
    var x := s.tasks[t].msg.id;
    assert Holds(s, AtTask(t), x);
    forall p, id ensures Holds(s', p, id) <==> Holds(s, p, id) { }
    assert x !in s.dups ==> s'.owner == s.owner;
    OwnedStay(s, s');
  }

  /** The task ends and its message leaves memory. */
  lemma OwnedTaskGone(s: State, s': State, t: nat)
    requires Placed(s)
    requires t in s.tasks && s'.tasks == s.tasks - {t}
    requires s'.removals == s.removals && s'.hands == s.hands && s'.inFlight == s.inFlight && s'.dups == s.dups
    requires s'.topics == s.topics && s'.issued == s.issued
    requires s'.owner == Moved(s, s.tasks[t].msg.id, Gone)
    ensures Placed(s')
  {
    OwnedMove(s, s', s.tasks[t].msg.id, AtTask(t), Gone);
  }

  lemma OwnedPublish(s: State, t: nat, m: Message, s': State)
    requires Owned(s) && Publish(s, t, m) == Some(s')
    ensures Placed(s')
  {
    OwnedMove(s, s', m.id, Gone, AtTask(t));
  }

  lemma OwnedEnterTopic(s: State, t: nat, s': State)
    requires Owned(s) && EnterTopic(s, t) == Some(s')
    ensures Placed(s')
  {
    var m := s.tasks[t].msg;
    IdsAppend(TopicOf(s, m.queue), m);
    OwnedMove(s, s', m.id, AtTask(t), AtTopic(m.queue));
  }

  lemma IdsAppend(ms: seq<Message>, m: Message)
    ensures Ids(ms + [m]) == Ids(ms) + {m.id}
  {
    assert forall x :: x in ms + [m] <==> x in ms || x == m;
  }

  lemma IdsRemove(ms: seq<Message>, i: nat)
    requires i < |ms|
    ensures Ids(ms) == Ids(ms[..i] + ms[i + 1..]) + {ms[i].id}
    ensures forall j :: 0 <= j < |ms| && j != i && ms[j].id == ms[i].id ==> ms[i].id in Ids(ms[..i] + ms[i + 1..])
    ensures ms[i].id in Ids(ms[..i] + ms[i + 1..]) ==> exists j :: 0 <= j < |ms| && j != i && ms[j].id == ms[i].id
  {
    var rest := ms[..i] + ms[i + 1..];
    forall j | 0 <= j < |ms| && j != i ensures ms[j] in rest {
      assert rest[if j < i then j else j - 1] == ms[j];
    }
    forall m | m in rest ensures exists j :: 0 <= j < |ms| && j != i && ms[j] == m {
      var k :| 0 <= k < |rest| && rest[k] == m;
      assert ms[if k < i then k else k + 1] == m;
    }
  }

  lemma OwnedDequeue(s: State, q: Queue, s': State)
    requires Owned(s) && Dequeue(s, q) == Some(s')
    ensures Placed(s')
  {
    var ms := TopicOf(s, q);
    IdsRemove(ms, 0);
    assert ms[..0] + ms[1..] == ms[1..];
    OwnedMove(s, s', ms[0].id, AtTopic(q), AtHand(q));
  }

  lemma OwnedExpirePending(s: State, q: Queue, i: nat, cutoff: Instant, t: nat, s': State)
    requires Owned(s) && ExpirePending(s, q, i, cutoff, t) == Some(s')
    ensures Placed(s')
  {
    var ms := TopicOf(s, q);
    IdsRemove(ms, i);
    OwnedMove(s, s', ms[i].id, AtTopic(q), AtTask(t));
  }

  lemma OwnedRegister(s: State, q: Queue, now: Instant, s': State)
    requires Owned(s) && Register(s, q, now) == Some(s')
    ensures Placed(s')
  {
    OwnedMove(s, s', s.hands[q].msg.id, AtHand(q), AtFlight);
  }

  lemma OwnedAbandon(s: State, q: Queue, s': State)
    requires Owned(s) && Abandon(s, q) == Some(s')
    ensures Placed(s')
  {
    OwnedMove(s, s', s.hands[q].msg.id, AtHand(q), Gone);
  }

  lemma OwnedTaken(s: State, id: MessageID, r: nat, after: After)
    requires Owned(s) && id in s.inFlight && r !in s.removals
    ensures Placed(Taken(s, id, r, after))
  {
    OwnedMove(s, Taken(s, id, r, after), id, AtFlight, AtRemoval(r));
  }

  lemma OwnedDecrement(s: State, r: nat, t: nat, s': State)
    requires Owned(s) && Decrement(s, r, t) == Some(s')
    ensures Placed(s')
  {
    OwnedMove(s, s', s.removals[r].entry.msg.id, AtRemoval(r), AtTask(t));
  }

  lemma OwnedForget(s: State, r: nat, s': State)
    requires Owned(s) && Forget(s, r) == Some(s')
    ensures Placed(s')
  {
    OwnedMove(s, s', s.removals[r].entry.msg.id, AtRemoval(r), Gone);
  }

  lemma DistinctRemove(s: State, s': State, q: Queue, i: nat)
    requires TopicsDistinct(s) && q in s.topics && i < |s.topics[q]| && s'.dups == s.dups
    requires s'.topics == s.topics[q := s.topics[q][..i] + s.topics[q][i + 1..]]
    ensures TopicsDistinct(s')
  {
    var ms, rest := s.topics[q], s'.topics[q];
    assert forall j :: 0 <= j < |rest| ==> rest[j] == ms[if j < i then j else j + 1];
  }

  lemma DistinctDequeue(s: State, q: Queue, s': State)
    requires TopicsDistinct(s) && Dequeue(s, q) == Some(s')
    ensures TopicsDistinct(s')
  {
    assert s.topics[q][..0] + s.topics[q][1..] == s.topics[q][1..];
    DistinctRemove(s, s', q, 0);
  }

  /** A topic that gains a message nobody else holds keeps its IDs distinct. */
  lemma DistinctEnterTopic(s: State, t: nat, s': State)
    requires Owned(s) && EnterTopic(s, t) == Some(s')
    ensures TopicsDistinct(s')
  {
    var m := s.tasks[t].msg;
    assert Holds(s, AtTask(t), m.id);
    assert m.id !in s.dups ==> !Holds(s, AtTopic(m.queue), m.id);
  }

  /** Nothing that holds messages changed. */
  lemma OwnedFrame(s: State, s': State)
    requires Owned(s)
    requires s'.tasks == s.tasks && s'.removals == s.removals && s'.inFlight == s.inFlight && s'.topics == s.topics
    requires s'.owner == s.owner && s'.dups == s.dups && s'.issued == s.issued
    requires s'.hands.Keys >= s.hands.Keys
    requires forall q :: q in s'.hands ==>
      if q in s.hands && InHand(s.hands[q]) then InHand(s'.hands[q]) && s'.hands[q].msg == s.hands[q].msg
      else !InHand(s'.hands[q])
    ensures Owned(s')
  {
    OwnedStay(s, s');
  }

  /** A new empty topic changes nothing. */
  lemma OwnedNewTopic(s: State, q: Queue, s': State)
    requires Owned(s) && q !in s.topics && s' == WithTopic(s, q, [])
    ensures Owned(s')
  {
    OwnedStay(s, s');
  }

  lemma BootOwnersHold(s: State)
    requires s == Boot(s.maxRetries, s.logs, s.torn, s.issued, s.known, s.landed, s.buried)
    ensures OwnersHold(s)
  {
    forall id | id in s.owner ensures Holds(s, s.owner[id], id) {
      var q := HolderOf(s.topics, id);
      var i :| OnlyAt(s.topics, q, i, id);
      assert s.topics[q][i] in s.topics[q];
    }
  }

  lemma BootHoldersOwn(s: State)
    requires s == Boot(s.maxRetries, s.logs, s.torn, s.issued, s.known, s.landed, s.buried)
    ensures HoldersOwn(s)
  {
    forall p, id | Holds(s, p, id) && id !in s.dups ensures id in s.owner && s.owner[id] == p {
      var q := p.queue;
      var m :| m in s.topics[q] && m.id == id;
      assert id in AllIds(s.topics);
      var i :| 0 <= i < |s.topics[q]| && s.topics[q][i] == m;
      assert InTopicAt(s.topics, q, i, id);
    }
  }

  lemma BootDistinct(s: State)
    requires s == Boot(s.maxRetries, s.logs, s.torn, s.issued, s.known, s.landed, s.buried)
    ensures TopicsDistinct(s)
  {
    forall q, i, j | q in s.topics && 0 <= i < j < |s.topics[q]| && s.topics[q][i].id == s.topics[q][j].id
      ensures s.topics[q][i].id in s.dups
    {
      var id := s.topics[q][i].id;
      assert s.topics[q][i] in s.topics[q];
      assert InTopicAt(s.topics, q, i, id) && InTopicAt(s.topics, q, j, id);
      assert !Unique(s.topics, id);
    }
  }

  /** Startup over any logs establishes ownership: replayed IDs either occur once or are recorded as duplicates. */
  lemma OwnedBoot(s: State)
    requires s == Boot(s.maxRetries, s.logs, s.torn, s.issued, s.known, s.landed, s.buried)
    requires LoggedIds(s.logs) <= s.issued
    ensures Owned(s)
  {
    BootOwnersHold(s);
    BootHoldersOwn(s);
    BootDistinct(s);
    forall id | id in AllIds(s.topics) ensures id in s.issued {
      var q, m :| q in s.topics && m in s.topics[q] && m.id == id;
      LiveIdsAreLogged(s.logs[q], m);
      var i :| 0 <= i < |s.logs[q]| && s.logs[q][i].id == m.id;
      assert id in LoggedIds(s.logs);
    }
  }

  lemma {:induction false} MessageIdsAreLogged(recs: seq<Record>, m: Message)
    requires m in Messages(recs)
    ensures exists i :: 0 <= i < |recs| && recs[i].id == m.id
  {
    var init, last := recs[..|recs| - 1], recs[|recs| - 1];
    if m in Messages(init) {
      MessageIdsAreLogged(init, m);
      var i :| 0 <= i < |init| && init[i].id == m.id;
      assert recs[i].id == m.id;
    } else {
      assert recs[|recs| - 1].id == m.id;
    }
  }

  lemma LiveIdsAreLogged(recs: seq<Record>, m: Message)
    requires m in Live(recs)
    ensures exists i :: 0 <= i < |recs| && recs[i].id == m.id
  {
    WithoutMembers(Messages(recs), Tombstoned(recs));
    MessageIdsAreLogged(recs, m);
  }
}
