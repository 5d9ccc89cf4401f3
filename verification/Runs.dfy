/** Building runs of the broker step by step: publishing, delivering, acknowledging and rejecting one message. */
module Runs {
  import opened Core
  import opened Log
  import opened Broker

  // ---------------------------------------------------------------------------
  // Runs without restart or compaction
  // ---------------------------------------------------------------------------

  predicate Plain(step: Step) { !step.SRestart? && !step.SCompactLog? }

  ghost predicate PlainRun(s: State, steps: seq<Step>, s': State) {
    Run(s, steps) == Some(s') && forall i :: 0 <= i < |steps| ==> Plain(steps[i])
  }

  ghost predicate Reaches(s: State, s': State) { exists steps :: PlainRun(s, steps, s') }

  lemma ReachesSelf(s: State)
    ensures Reaches(s, s)
  {
    assert PlainRun(s, [], s);
  }

  lemma RunOne(s: State, steps: seq<Step>, s1: State, step: Step)
    requires Run(s, steps) == Some(s1)
    ensures Run(s, steps + [step]) == Next(s1, step)
  {
    var longer := steps + [step];
    assert longer[..|longer| - 1] == steps && longer[|longer| - 1] == step;
  }

  lemma PlainOne(steps: seq<Step>, step: Step)
    requires Plain(step) && forall i :: 0 <= i < |steps| ==> Plain(steps[i])
    ensures forall i :: 0 <= i < |steps + [step]| ==> Plain((steps + [step])[i])
  {
  }

  lemma Extend(s: State, s1: State, step: Step, s2: State)
    requires Reaches(s, s1) && Plain(step) && Next(s1, step) == Some(s2)
    ensures Reaches(s, s2)
  {
    var steps :| PlainRun(s, steps, s1);
    RunOne(s, steps, s1, step);
    PlainOne(steps, step);
    assert PlainRun(s, steps + [step], s2);
  }

  /** No operation is under way and every log can be written. */
  ghost predicate Still(s: State) {
    s.torn == {} && !s.closing && !s.closed && s.tasks == map[] && s.removals == map[]
  }

  /** Nor is any dispatcher, and every consumer has received what was sent to it. */
  ghost predicate Calm(s: State) { Still(s) && Drained(s) && forall q :: q in s.hands ==> s.hands[q] == Idle }

  ghost predicate Drained(s: State) { !s.cancelled && forall c :: c in s.mailboxes ==> s.mailboxes[c].msgs == [] }

  /** The parts that no single step below touches unless it says so. */
  ghost predicate Kept(s: State, s': State) {
    s' == s.(logs := s'.logs, topics := s'.topics, hands := s'.hands, inFlight := s'.inFlight, tasks := s'.tasks,
             removals := s'.removals, consumers := s'.consumers, known := s'.known,
             landed := s'.landed, owner := s'.owner, writes := s'.writes, delivered := s'.delivered, removed := s'.removed)
  }

  /** A step of a dispatcher or a consumer. */
  ghost predicate KeptMore(s: State, s': State) {
    s' == s.(topics := s'.topics, hands := s'.hands, inFlight := s'.inFlight, consumers := s'.consumers,
             mailboxes := s'.mailboxes, known := s'.known, owner := s'.owner, delivered := s'.delivered)
  }

  // ---------------------------------------------------------------------------
  // Publishing
  // ---------------------------------------------------------------------------

  lemma DoPublish(s: State, m: Message) returns (s': State)
    requires !s.closing && s.tasks == map[] && m.id !in s.issued && m.retryCount == 0
    ensures Next(s, SPublish(0, m)) == Some(s') && s'.tasks == map[0 := Checked(m)] && m.id in s'.home && s'.home[m.id] == m.queue
    ensures s'.torn == s.torn && s'.closing == s.closing && s'.closed == s.closed && s'.maxRetries == s.maxRetries
    ensures s'.buried == s.buried && s'.swallowed == s.swallowed && s'.logs == s.logs && s'.topics == s.topics
    ensures s'.hands == s.hands && s'.removals == s.removals && s'.delivered == s.delivered && s'.landed == s.landed
    ensures s'.issued == s.issued + {m.id} && s'.mailboxes == s.mailboxes && s'.cancelled == s.cancelled
  {
    s' := Publish(s, 0, m).value;
  }

  /** The topic of a queue once the queue is loaded. */
  function TopicIn(s: State, q: Queue): seq<Message> { if q in s.topics then s.topics[q] else Live(LogOf(s, q)) }

  lemma LoadedAs(s: State, q: Queue)
    ensures Loaded(s, q) == s.topics[q := TopicIn(s, q)]
  {
  }

  ghost predicate Loads(s: State, s': State, m: Message) {
    s' == s.(topics := s.topics[m.queue := TopicIn(s, m.queue)], tasks := map[0 := Ready(m)], owner := s'.owner)
  }

  lemma DoInitQueue(s: State, m: Message) returns (s': State)
    requires s.tasks == map[0 := Checked(m)]
    ensures Next(s, SInitQueue(0)) == Some(s') && Loads(s, s', m)
  {
    LoadedAs(s, m.queue);
    s' := InitQueue(s, 0).value;
    assert s'.tasks == map[0 := Ready(m)];
  }

  ghost predicate Lands(s: State, s': State, m: Message) {
    s' == s.(tasks := map[0 := Logged(m)], logs := Appended(s, m.queue, Put(m)), landed := s'.landed, owner := s'.owner,
             writes := s'.writes)
  }

  lemma WriteLands(s: State, t: nat)
    requires IsReady(s, t) && !s.closed && s.tasks[t].msg.queue !in s.torn
    ensures Next(s, SWriteRecord(t)) == Some(LandRecord(s, t))
  {
  }

  lemma LandsAs(s: State, m: Message)
    requires s.tasks == map[0 := Ready(m)]
    ensures Lands(s, LandRecord(s, 0), m)
  {
    assert s.tasks[0 := Logged(m)] == map[0 := Logged(m)];
  }

  lemma DoWrite(s: State, m: Message) returns (s': State)
    requires s.tasks == map[0 := Ready(m)] && !s.closed && m.queue !in s.torn
    ensures Next(s, SWriteRecord(0)) == Some(s') && Lands(s, s', m)
  {
    s' := LandRecord(s, 0);
    WriteLands(s, 0);
    LandsAs(s, m);
  }

  lemma WriteSwallows(s: State, t: nat)
    requires IsReady(s, t) && !s.closed && s.tasks[t].msg.queue in s.torn
    ensures Next(s, SWriteRecord(t)) == Some(SwallowRecord(s, t))
  {
  }

  lemma SwallowsAs(s: State, m: Message)
    requires s.tasks == map[0 := Ready(m)]
    ensures SwallowRecord(s, 0) == s.(tasks := map[0 := Logged(m)], owner := SwallowRecord(s, 0).owner,
                                      writes := SwallowRecord(s, 0).writes, swallowed := SwallowRecord(s, 0).swallowed)
  {
    assert s.tasks[0 := Logged(m)] == map[0 := Logged(m)];
  }

  lemma DoSwallow(s: State, m: Message) returns (s': State)
    requires s.tasks == map[0 := Ready(m)] && !s.closed && m.queue in s.torn
    ensures Next(s, SWriteRecord(0)) == Some(s') && s'.tasks == map[0 := Logged(m)]
    ensures s'.topics == s.topics && s'.landed == s.landed && s'.home == s.home
  {
    s' := SwallowRecord(s, 0);
    WriteSwallows(s, 0);
    SwallowsAs(s, m);
  }

  lemma DoFailShort(s: State, m: Message, cut: nat) returns (s': State)
    requires s.tasks == map[0 := Ready(m)] && !s.closed
    ensures Next(s, SFailShort(0, cut)) == Some(s') && s' == s.(tasks := map[], owner := s'.owner, torn := s.torn + {m.queue})
  {
    s' := FailShort(s, 0).value;
    assert s'.tasks == map[];
  }

  ghost predicate Enters(s: State, s': State, m: Message)
    requires m.queue in s.topics
  {
    s' == s.(tasks := map[], topics := s.topics[m.queue := s.topics[m.queue] + [m]], owner := s'.owner)
  }

  lemma DoEnter(s: State, m: Message) returns (s': State)
    requires s.tasks == map[0 := Logged(m)] && m.queue in s.topics
    ensures Next(s, SEnterTopic(0)) == Some(s') && Enters(s, s', m)
  {
    s' := EnterTopic(s, 0).value;
    assert s'.tasks == map[];
  }

  /** What an enqueue leaves: the record in the log, the message at the back of the topic. */
  ghost predicate Enqueues(s: State, s': State, m: Message) {
    s' == s.(tasks := map[], logs := Appended(s, m.queue, Put(m)), landed := s'.landed, owner := s'.owner,
             writes := s'.writes, topics := s.topics[m.queue := TopicIn(s, m.queue) + [m]])
  }

  lemma EnqueuesAs(s: State, s1: State, s2: State, s': State, m: Message)
    requires Loads(s, s1, m) && Lands(s1, s2, m) && Enters(s2, s', m)
    ensures Enqueues(s, s', m)
  {
    assert s'.topics == s.topics[m.queue := TopicIn(s, m.queue) + [m]];
  }

  lemma Enter(start: State, s: State, m: Message) returns (s': State)
    requires Reaches(start, s) && s.tasks == map[0 := Checked(m)] && !s.closed && m.queue !in s.torn
    ensures Reaches(start, s') && Enqueues(s, s', m)
  {
    var s1 := DoInitQueue(s, m);
    Extend(start, s, SInitQueue(0), s1);
    var s2 := DoWrite(s1, m);
    Extend(start, s1, SWriteRecord(0), s2);
    s' := DoEnter(s2, m);
    Extend(start, s2, SEnterTopic(0), s');
    EnqueuesAs(s, s1, s2, s', m);
  }

  // ---------------------------------------------------------------------------
  // Delivering the first message of a topic
  // ---------------------------------------------------------------------------

  lemma {:induction false} LongerThanAll(known: set<ConsumerID>) returns (n: nat)
    ensures forall c :: c in known ==> |c| < n
    decreases known
  {
    n := 0;
    if known != {} {
      var c :| c in known;
      var k := LongerThanAll(known - {c});
      n := if k <= |c| then |c| + 1 else k;
    }
  }

  lemma FreshConsumer(known: set<ConsumerID>) returns (c: ConsumerID)
    ensures c !in known
  {
    var n := LongerThanAll(known);
    c := seq(n, _ => 'c');
  }

  lemma DoConnect(s: State, q: Queue, c: ConsumerID) returns (s': State)
    requires c !in s.known
    ensures Next(s, SConnect(c, q, 1)) == Some(s') && KeptMore(s, s') && s'.topics == s.topics && s'.hands == s.hands
    ensures IsEligible(s'.consumers, c, q) && s'.mailboxes == s.mailboxes[c := Mailbox(1, [])]
    ensures s'.delivered == s.delivered
  {
    s' := Connect(s, c, q, 1).value;
  }

  lemma DoDequeue(s: State, q: Queue) returns (s': State)
    requires q in s.hands && s.hands[q] == Idle && q in s.topics && s.topics[q] != []
    ensures Next(s, SDequeue(q)) == Some(s') && KeptMore(s, s') && s'.consumers == s.consumers && s'.mailboxes == s.mailboxes
    ensures s'.topics == s.topics[q := s.topics[q][1..]] && s'.hands == s.hands[q := Holding(s.topics[q][0])]
    ensures s'.delivered == s.delivered
  {
    s' := Dequeue(s, q).value;
  }

  /** A new consumer arrives and the dispatcher takes up the first message. */
  lemma Offer(start: State, s: State, q: Queue) returns (s': State, c: ConsumerID)
    requires Reaches(start, s) && q in s.hands && s.hands[q] == Idle && q in s.topics && s.topics[q] != []
    ensures Reaches(start, s') && KeptMore(s, s') && s'.delivered == s.delivered
    ensures s'.topics == s.topics[q := s.topics[q][1..]] && s'.hands == s.hands[q := Holding(s.topics[q][0])]
    ensures IsEligible(s'.consumers, c, q) && s'.mailboxes == s.mailboxes[c := Mailbox(1, [])]
  {
    c := FreshConsumer(s.known);
    var s1 := DoConnect(s, q, c);
    Extend(start, s, SConnect(c, q, 1), s1);
    s' := DoDequeue(s1, q);
    Extend(start, s1, SDequeue(q), s');
  }

  lemma DoSnapshot(s: State, q: Queue, m: Message, c: ConsumerID) returns (s': State)
    requires q in s.hands && s.hands[q] == Holding(m) && IsEligible(s.consumers, c, q)
    ensures Next(s, SSnapshot(q)) == Some(s') && KeptMore(s, s') && s'.topics == s.topics && s'.mailboxes == s.mailboxes
    ensures c in EligibleConsumers(s, q) && s'.hands == s.hands[q := Choosing(m, EligibleConsumers(s, q))]
    ensures s'.delivered == s.delivered
  {
    assert c in EligibleConsumers(s, q);
    s' := Snapshot(s, q).value;
  }

  lemma DoCharge(s: State, q: Queue, m: Message, eligible: set<ConsumerID>, c: ConsumerID) returns (s': State)
    requires q in s.hands && s.hands[q] == Choosing(m, eligible) && c in eligible
    ensures Next(s, SCharge(q, c)) == Some(s') && KeptMore(s, s') && s'.topics == s.topics && s'.mailboxes == s.mailboxes
    ensures s'.hands == s.hands[q := Pc.Charged(m, c)] && s'.delivered == s.delivered
  {
    s' := Charge(s, q, c).value;
  }

  lemma Choose(start: State, s: State, q: Queue, m: Message, c: ConsumerID) returns (s': State)
    requires Reaches(start, s) && q in s.hands && s.hands[q] == Holding(m) && IsEligible(s.consumers, c, q)
    ensures Reaches(start, s') && KeptMore(s, s') && s'.topics == s.topics && s'.mailboxes == s.mailboxes
    ensures s'.hands == s.hands[q := Pc.Charged(m, c)] && s'.delivered == s.delivered
  {
    var s1 := DoSnapshot(s, q, m, c);
    Extend(start, s, SSnapshot(q), s1);
    s' := DoCharge(s1, q, m, EligibleConsumers(s, q), c);
    Extend(start, s1, SCharge(q, c), s');
  }

  /** The message as it is registered and sent. */
  function Sent(m: Message): Message { m.(dispatchedAt := 0, status := Status.InFlight) }

  lemma DoRegister(s: State, q: Queue, m: Message, c: ConsumerID) returns (s': State)
    requires q in s.hands && s.hands[q] == Pc.Charged(m, c)
    ensures Next(s, SRegister(q, 0)) == Some(s') && KeptMore(s, s') && s'.topics == s.topics && s'.mailboxes == s.mailboxes
    ensures s'.hands == s.hands[q := Sending(Sent(m), c)] && s'.inFlight == s.inFlight[m.id := Entry(Sent(m), c)]
    ensures s'.delivered == s.delivered + multiset{(m.queue, m.id)}
  {
    s' := Register(s, q, 0).value;
  }

  lemma DoSend(s: State, q: Queue, m: Message, c: ConsumerID) returns (s': State)
    requires q in s.hands && s.hands[q] == Sending(m, c) && c in s.mailboxes && s.mailboxes[c] == Mailbox(1, [])
    ensures Next(s, SSend(q)) == Some(s') && KeptMore(s, s') && s'.topics == s.topics && s'.inFlight == s.inFlight
    ensures s'.hands == s.hands[q := Idle] && s'.delivered == s.delivered && s'.mailboxes == s.mailboxes[c := Mailbox(1, [m])]
  {
    s' := Send(s, q).value;
    assert [] + [m] == [m];
  }

  lemma DoReceive(s: State, m: Message, c: ConsumerID) returns (s': State)
    requires c in s.mailboxes && s.mailboxes[c] == Mailbox(1, [m])
    ensures Next(s, SReceive(c)) == Some(s') && s' == s.(mailboxes := s.mailboxes[c := Mailbox(1, [])])
  {
    s' := Receive(s, c).value;
    assert [m][1..] == [];
  }

  lemma Hand(start: State, s: State, q: Queue, m: Message, c: ConsumerID) returns (s': State)
    requires Reaches(start, s) && q in s.hands && s.hands[q] == Pc.Charged(m, c)
    requires c in s.mailboxes && s.mailboxes[c] == Mailbox(1, [])
    ensures Reaches(start, s') && KeptMore(s, s') && s'.topics == s.topics && s'.mailboxes == s.mailboxes
    ensures s'.hands == s.hands[q := Idle] && m.id in s'.inFlight && s'.inFlight[m.id].msg == Sent(m)
    ensures s'.delivered == s.delivered + multiset{(m.queue, m.id)}
  {
    var s1 := DoRegister(s, q, m, c);
    Extend(start, s, SRegister(q, 0), s1);
    var s2 := DoSend(s1, q, Sent(m), c);
    Extend(start, s1, SSend(q), s2);
    s' := DoReceive(s2, Sent(m), c);
    Extend(start, s2, SReceive(c), s');
    assert s.mailboxes[c := s.mailboxes[c]] == s.mailboxes;
  }

  lemma Deliver(start: State, s: State, q: Queue) returns (s': State)
    requires Reaches(start, s) && Calm(s) && q in s.hands && q in s.topics && s.topics[q] != []
    ensures Reaches(start, s') && KeptMore(s, s') && Calm(s') && q in s'.hands
    ensures s'.topics == s.topics[q := s.topics[q][1..]]
    ensures var m := s.topics[q][0];
      && m.id in s'.inFlight && s'.inFlight[m.id].msg == Sent(m)
      && s'.delivered == s.delivered + multiset{(m.queue, m.id)}
  {
    var m := s.topics[q][0];
    var s1, c := Offer(start, s, q);
    var s2 := Choose(start, s1, q, m, c);
    s' := Hand(start, s2, q, m, c);
  }

  lemma Started(start: State, s: State, q: Queue) returns (s': State)
    requires Reaches(start, s) && Calm(s)
    ensures Reaches(start, s') && KeptMore(s, s') && Calm(s') && q in s'.hands
    ensures s'.topics == s.topics && s'.delivered == s.delivered
  {
    s' := s;
    if q !in s.hands {
      s' := StartDispatcher(s, q).value;
      Extend(start, s, SStartDispatcher(q), s');
    }
  }

  /** The message at position `i` is delivered; those ahead of it are delivered before and left in flight. */
  ghost predicate DeliversAt(s: State, s': State, q: Queue, i: nat)
    requires q in s.topics && i < |s.topics[q]|
  {
    && KeptMore(s, s') && Calm(s')
    && s'.topics == s.topics[q := s.topics[q][i + 1..]]
    && s.topics[q][i].id in s'.inFlight && s'.inFlight[s.topics[q][i].id].msg == Sent(s.topics[q][i])
    && (i == 0 ==> s'.delivered == s.delivered + multiset{(s.topics[q][0].queue, s.topics[q][0].id)})
  }

  lemma DeliversOneMore(s: State, s1: State, s': State, q: Queue, i: nat)
    requires q in s.topics && 0 < i < |s.topics[q]| && DeliversAt(s, s1, q, i - 1) && DeliversAt(s1, s', q, 0)
    ensures DeliversAt(s, s', q, i)
  {
    var ms := s.topics[q];
    assert ms[i..][0] == ms[i] && ms[i..][1..] == ms[i + 1..];
    assert s1.topics[q := ms[i + 1..]] == s.topics[q := ms[i + 1..]];
  }

  lemma DeliverFirst(start: State, s: State, q: Queue) returns (s': State)
    requires Reaches(start, s) && Calm(s) && q in s.hands && q in s.topics && s.topics[q] != []
    ensures Reaches(start, s') && DeliversAt(s, s', q, 0) && q in s'.hands
  {
    s' := Deliver(start, s, q);
  }

  lemma DeliverNext(start: State, s: State, s1: State, q: Queue, i: nat) returns (s': State)
    requires q in s.topics && 0 < i < |s.topics[q]| && Reaches(start, s1) && DeliversAt(s, s1, q, i - 1) && q in s1.hands
    ensures Reaches(start, s') && DeliversAt(s, s', q, i) && q in s'.hands
  {
    s' := DeliverFirst(start, s1, q);
    DeliversOneMore(s, s1, s', q, i);
  }

  lemma {:induction false} DeliverFrom(start: State, s: State, q: Queue, i: nat) returns (s': State)
    requires Reaches(start, s) && Calm(s) && q in s.hands && q in s.topics && i < |s.topics[q]|
    ensures Reaches(start, s') && DeliversAt(s, s', q, i) && q in s'.hands
    decreases i
  {
    if i == 0 {
      s' := DeliverFirst(start, s, q);
    } else {
      var s1 := DeliverFrom(start, s, q, i - 1);
      s' := DeliverNext(start, s, s1, q, i);
    }
  }

  lemma DeliverAt(start: State, s: State, q: Queue, i: nat) returns (s': State)
    requires Reaches(start, s) && Calm(s) && q in s.topics && i < |s.topics[q]|
    ensures Reaches(start, s') && DeliversAt(s, s', q, i)
  {
    var s1 := Started(start, s, q);
    s' := DeliverFrom(start, s1, q, i);
  }

  // ---------------------------------------------------------------------------
  // Outcomes
  // ---------------------------------------------------------------------------

  lemma DoTake(s: State, id: MessageID, cause: Cause) returns (s': State)
    requires s.removals == map[] && id in s.inFlight && Applies(cause, s.inFlight[id])
    ensures Next(s, STake(id, cause, 0)) == Some(s') && Kept(s, s') && s'.tasks == s.tasks && s'.logs == s.logs
    ensures s'.removals == map[0 := Removal(s.inFlight[id], AfterOf(cause))] && s'.inFlight == s.inFlight - {id}
    ensures s'.topics == s.topics && s'.hands == s.hands && s'.delivered == s.delivered && s'.consumers == s.consumers
  {
    s' := Take(s, id, cause, 0).value;
  }

  lemma DoDecrement(s: State, e: Entry, after: After) returns (s': State)
    requires s.removals == map[0 := Removal(e, after)] && s.tasks == map[] && !after.Drop?
    ensures Next(s, SDecrement(0, 0)) == Some(s') && Kept(s, s') && s'.logs == s.logs && s'.removals == map[]
    ensures s'.tasks == map[0 := TaskAfter(Removal(e, after))] && s'.inFlight == s.inFlight
    ensures s'.topics == s.topics && s'.hands == s.hands && s'.delivered == s.delivered
    ensures s'.consumers == AddToCount(s.consumers, e.consumer, -1)
  {
    s' := Decrement(s, 0, 0).value;
    assert s'.removals == map[];
  }

  lemma DoRetry(s: State, m: Message, now: Instant) returns (s': State)
    requires s.tasks == map[0 := Requeueing(m)] && !s.closing
    ensures Next(s, SRetry(0, now)) == Some(s') && Kept(s, s') && s'.removals == s.removals && s'.logs == s.logs
    ensures s'.tasks == map[0 := Checked(AfterNack(m, s.maxRetries, now))] && s'.inFlight == s.inFlight
    ensures s'.topics == s.topics && s'.hands == s.hands && s'.delivered == s.delivered && s'.consumers == s.consumers
  {
    s' := Retry(s, 0, now).value;
  }

  lemma DoBury(s: State, m: Message) returns (s': State)
    requires s.tasks == map[0 := Burying(m)] && !s.closed && m.queue !in s.torn && m.queue in s.topics
    ensures Next(s, SWriteTombstone(0)) == Some(s')
    ensures s' == s.(tasks := map[], logs := Appended(s, m.queue, Tombstone(m.id)), owner := s'.owner, buried := s'.buried)
  {
    s' := LandTombstone(s, 0);
    assert s'.tasks == map[];
  }

  /** The rest of an outcome up to the task that carries it out. */
  lemma Outcome(start: State, s: State, id: MessageID, cause: Cause) returns (s': State)
    requires Reaches(start, s) && Calm(s) && id in s.inFlight && (cause.ByAck? || cause.ByNack?)
    ensures Reaches(start, s') && Kept(s, s') && s'.logs == s.logs && s'.removals == map[] && s'.hands == s.hands
    ensures s'.tasks == map[0 := TaskAfter(Removal(s.inFlight[id], AfterOf(cause)))]
    ensures s'.topics == s.topics && s'.delivered == s.delivered
  {
    var s1 := DoTake(s, id, cause);
    Extend(start, s, STake(id, cause, 0), s1);
    s' := DoDecrement(s1, s.inFlight[id], AfterOf(cause));
    Extend(start, s1, SDecrement(0, 0), s');
  }

  lemma Reject(start: State, s: State, id: MessageID) returns (s': State)
    requires Reaches(start, s) && Calm(s) && id in s.inFlight
    ensures Reaches(start, s') && Kept(s, s') && s'.logs == s.logs && s'.removals == map[] && s'.hands == s.hands
    ensures s'.tasks == map[0 := Checked(AfterNack(s.inFlight[id].msg, s.maxRetries, 0))]
    ensures s'.topics == s.topics && s'.delivered == s.delivered
  {
    var s1 := Outcome(start, s, id, ByNack);
    s' := DoRetry(s1, s.inFlight[id].msg, 0);
    Extend(start, s1, SRetry(0, 0), s');
  }

  /** What comes back after the message is delivered and rejected. */
  function Bounced(m: Message, maxRetries: int32): Message { AfterNack(Sent(m), maxRetries, 0) }

  /** Delivered at position `i` and rejected: logged again and at the back of its topic. */
  ghost predicate BouncesAt(s: State, s': State, q: Queue, i: nat)
    requires q in s.topics && i < |s.topics[q]|
  {
    var m := Bounced(s.topics[q][i], s.maxRetries);
    var rest := s.topics[q := s.topics[q][i + 1..]];
    && Kept(s.(mailboxes := s'.mailboxes), s') && Calm(s')
    && s'.logs == s.logs[m.queue := LogOf(s, m.queue) + [Put(m)]]
    && s'.topics == rest[m.queue := TopicIn(s.(topics := rest), m.queue) + [m]]
    && (i == 0 ==> s'.delivered == s.delivered + multiset{(s.topics[q][0].queue, s.topics[q][0].id)})
  }

  lemma Bounce(start: State, s: State, q: Queue, i: nat) returns (s': State)
    requires Reaches(start, s) && Calm(s) && q in s.topics && i < |s.topics[q]|
    ensures Reaches(start, s') && BouncesAt(s, s', q, i)
  {
    var s1 := DeliverAt(start, s, q, i);
    var s2 := Reject(start, s1, s.topics[q][i].id);
    s' := Enter(start, s2, Bounced(s.topics[q][i], s.maxRetries));
  }

  /** Delivered at position `i` and acknowledged: tombstoned. */
  ghost predicate AcksAt(s: State, s': State, q: Queue, i: nat)
    requires q in s.topics && i < |s.topics[q]|
  {
    && Calm(s') && s'.maxRetries == s.maxRetries
    && s'.logs == s.logs[q := LogOf(s, q) + [Tombstone(s.topics[q][i].id)]]
    && s'.topics == s.topics[q := s.topics[q][i + 1..]]
  }

  lemma AckAt(start: State, s: State, q: Queue, i: nat) returns (s': State)
    requires Reaches(start, s) && Calm(s) && q in s.topics && i < |s.topics[q]| && s.topics[q][i].queue == q
    ensures Reaches(start, s') && AcksAt(s, s', q, i)
  {
    var s1 := DeliverAt(start, s, q, i);
    var s2 := Outcome(start, s1, s.topics[q][i].id, ByAck);
    s' := DoBury(s2, Sent(s.topics[q][i]));
    Extend(start, s2, SWriteTombstone(0), s');
  }
}
