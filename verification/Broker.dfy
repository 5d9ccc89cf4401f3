/**
 The running broker as an interleaved transition system. Each step is one section of code between lock acquisitions:
 the dispatcher goroutines are program counters, every other goroutine in the middle of an operation is a task.
 Fields under "history" only record what happened; no step is enabled or disabled by them, except that message and
 consumer IDs are generated fresh.
 */
module Broker {
  import opened Core
  import opened Wire
  import opened Log

  datatype Consumer = Consumer(queue: Queue, prefetch: int32, count: int)

  datatype Mailbox = Mailbox(capacity: nat, msgs: seq<Message>)

  /** Where a dispatcher stands: waiting for a message, holding one, or on its way to a consumer with it. */
  datatype Pc =
    | Idle
    | Holding(msg: Message)
    | Choosing(msg: Message, eligible: set<ConsumerID>)
    | Charged(msg: Message, consumer: ConsumerID)
    | Sending(msg: Message, consumer: ConsumerID)
    | Stopped

  /** An operation that owns a message: inside `Enqueue`, about to write a tombstone, or about to retry. */
  datatype Task =
    | Checked(msg: Message)
    | Ready(msg: Message)
    | Logged(msg: Message)
    | Burying(msg: Message)
    | Requeueing(msg: Message)

  datatype After = Bury | Requeue | Drop

  /** An entry taken out of the in-flight map whose consumer counter is not decremented yet. */
  datatype Removal = Removal(entry: Entry, after: After)

  datatype Place = AtTask(task: nat) | AtRemoval(removal: nat) | AtTopic(queue: Queue) | AtHand(hand: Queue) | AtFlight | Gone

  /** A crash in the middle of an append leaves `cut` bytes of a frame. */
  datatype Tear = Tear(rec: Record, cut: nat)

  datatype State = State(
    maxRetries: int32,
    // durable
    logs: map<Queue, seq<Record>>,
    torn: set<Queue>,
    // volatile
    topics: map<Queue, seq<Message>>,
    hands: map<Queue, Pc>,
    inFlight: map<MessageID, Entry>,
    tasks: map<nat, Task>,
    removals: map<nat, Removal>,
    consumers: map<ConsumerID, Consumer>,
    mailboxes: map<ConsumerID, Mailbox>,
    closing: bool,
    cancelled: bool,
    closed: bool,
    // history of all sessions
    issued: set<MessageID>,
    known: set<ConsumerID>,
    landed: set<(Queue, MessageID)>,
    buried: set<(Queue, MessageID)>,
    // history of this session
    owner: map<MessageID, Place>,
    dups: set<MessageID>,
    home: map<MessageID, Queue>,
    content: map<MessageID, Content>,
    swallowed: set<(MessageID, nat)>,
    writes: map<MessageID, nat>,
    delivered: multiset<(Queue, MessageID)>,
    removed: multiset<(Queue, MessageID)>)

  function LogOf(s: State, q: Queue): seq<Record> { if q in s.logs then s.logs[q] else [] }

  function TopicOf(s: State, q: Queue): seq<Message> { if q in s.topics then s.topics[q] else [] }

  function WithTopic(s: State, q: Queue, ms: seq<Message>): State { s.(topics := s.topics[q := ms]) }

  /** `initQueue`: an unknown queue is loaded from its log. */
  function Loaded(s: State, q: Queue): map<Queue, seq<Message>> {
    if q in s.topics then s.topics else s.topics[q := Live(LogOf(s, q))]
  }

  function WithQueue(s: State, q: Queue): State { s.(topics := Loaded(s, q)) }

  function WithTask(s: State, t: nat, task: Task): State {
    s.(tasks := s.tasks[t := task], owner := Moved(s, task.msg.id, AtTask(t)))
  }

  /** The history of places follows only the IDs that are unique in memory. */
  function Moved(s: State, id: MessageID, place: Place): map<MessageID, Place> {
    if id in s.dups then s.owner else s.owner[id := place]
  }

  function WithoutTask(s: State, t: nat, place: Place): State
    requires t in s.tasks
  {
    s.(tasks := s.tasks - {t}, owner := Moved(s, s.tasks[t].msg.id, place))
  }

  function Appended(s: State, q: Queue, rec: Record): map<Queue, seq<Record>> { s.logs[q := LogOf(s, q) + [rec]] }

  function AddToCount(cs: map<ConsumerID, Consumer>, c: ConsumerID, delta: int): map<ConsumerID, Consumer> {
    if c in cs then cs[c := cs[c].(count := cs[c].count + delta)] else cs
  }

  function WritesOf(s: State, id: MessageID): nat { if id in s.writes then s.writes[id] else 0 }

  // ---------------------------------------------------------------------------
  // Manager.Enqueue and Manager.WriteTombstone
  // ---------------------------------------------------------------------------

  /** A publish passes the closing check with a fresh ID and a zero retry count. */
  function Publish(s: State, t: nat, m: Message): Option<State> {
    if s.closing || t in s.tasks || m.id in s.issued || m.retryCount != 0 then None
    else Some(s.(tasks := s.tasks[t := Checked(m)], owner := Moved(s, m.id, AtTask(t)), issued := s.issued + {m.id},
                 home := s.home[m.id := m.queue], content := s.content[m.id := ContentOf(m)], writes := s.writes[m.id := 0]))
  }

  function InitQueue(s: State, t: nat): Option<State> {
    if t in s.tasks && s.tasks[t].Checked? then
      var m := s.tasks[t].msg;
      Some(s.(topics := Loaded(s, m.queue), tasks := s.tasks[t := Ready(m)], owner := Moved(s, m.id, AtTask(t))))
    else None
  }

  function LandRecord(s: State, t: nat): State
    requires t in s.tasks
  {
    var m := s.tasks[t].msg;
    s.(tasks := s.tasks[t := Logged(m)], owner := Moved(s, m.id, AtTask(t)),
       writes := s.writes[m.id := WritesOf(s, m.id) + 1],
       logs := Appended(s, m.queue, Put(m)), landed := s.landed + {(m.queue, m.id)})
  }

  function SwallowRecord(s: State, t: nat): State
    requires t in s.tasks
  {
    var m := s.tasks[t].msg;
    s.(tasks := s.tasks[t := Logged(m)], owner := Moved(s, m.id, AtTask(t)),
       writes := s.writes[m.id := WritesOf(s, m.id) + 1], swallowed := s.swallowed + {(m.id, WritesOf(s, m.id))})
  }

  predicate IsReady(s: State, t: nat) { t in s.tasks && s.tasks[t].Ready? }

  predicate IsBurying(s: State, t: nat) { t in s.tasks && s.tasks[t].Burying? && s.tasks[t].msg.queue in s.topics }

  /**
   The record reaches the file before the message reaches the topic. Behind a torn tail the write succeeds just as well,
   but no replay gets that far.
   */
  function WriteRecord(s: State, t: nat): Option<State> {
    if !IsReady(s, t) || s.closed then None
    else if s.tasks[t].msg.queue in s.torn then Some(SwallowRecord(s, t))
    else Some(LandRecord(s, t))
  }

  /** An error before anything is written, or, once the record is in the file, from the final sync. */
  function FailWrite(s: State, t: nat): Option<State> {
    if t in s.tasks && !s.tasks[t].Requeueing? then Some(WithoutTask(s, t, Gone)) else None
  }

  /** An error after part of the frame: the file ends in a torn tail from now on. */
  function FailShort(s: State, t: nat): Option<State> {
    if (IsReady(s, t) || IsBurying(s, t)) && !s.closed then
      Some(WithoutTask(s, t, Gone).(torn := s.torn + {s.tasks[t].msg.queue}))
    else None
  }

  function EnterTopic(s: State, t: nat): Option<State> {
    if t in s.tasks && s.tasks[t].Logged? then
      var m := s.tasks[t].msg;
      Some(s.(tasks := s.tasks - {t}, owner := Moved(s, m.id, AtTopic(m.queue)),
              topics := s.topics[m.queue := TopicOf(s, m.queue) + [m]]))
    else None
  }

  function LandTombstone(s: State, t: nat): State
    requires t in s.tasks
  {
    var m := s.tasks[t].msg;
    s.(tasks := s.tasks - {t}, owner := Moved(s, m.id, Gone), logs := Appended(s, m.queue, Tombstone(m.id)),
       buried := s.buried + {(m.queue, m.id)})
  }

  function WriteTombstone(s: State, t: nat): Option<State> {
    if !IsBurying(s, t) || s.closed then None
    else if s.tasks[t].msg.queue in s.torn then Some(WithoutTask(s, t, Gone))
    else Some(LandTombstone(s, t))
  }

  // ---------------------------------------------------------------------------
  // Dispatcher.Run
  // ---------------------------------------------------------------------------

  function WithHand(s: State, q: Queue, pc: Pc): State { s.(hands := s.hands[q := pc]) }

  function StartDispatcher(s: State, q: Queue): Option<State> {
    if q in s.hands then None else Some(WithHand(s, q, Idle))
  }

  function InitForDequeue(s: State, q: Queue): Option<State> {
    if q in s.hands && s.hands[q].Idle? then Some(WithQueue(s, q)) else None
  }

  function Dequeue(s: State, q: Queue): Option<State> {
    if q in s.hands && s.hands[q].Idle? && TopicOf(s, q) != [] then
      var ms := TopicOf(s, q);
      Some(s.(topics := s.topics[q := ms[1..]], hands := s.hands[q := Holding(ms[0])],
              owner := Moved(s, ms[0].id, AtHand(q))))
    else None
  }

  predicate IsEligible(cs: map<ConsumerID, Consumer>, c: ConsumerID, q: Queue) {
    c in cs && cs[c].queue == q && cs[c].count < cs[c].prefetch
  }

  function EligibleConsumers(s: State, q: Queue): set<ConsumerID> {
    set c | c in s.consumers && IsEligible(s.consumers, c, q)
  }

  /** The eligible consumers are read under the registry lock; the choice among them happens later. */
  function Snapshot(s: State, q: Queue): Option<State> {
    if q in s.hands && s.hands[q].Holding? && EligibleConsumers(s, q) != {} then
      Some(WithHand(s, q, Choosing(s.hands[q].msg, EligibleConsumers(s, q))))
    else None
  }

  function Charge(s: State, q: Queue, c: ConsumerID): Option<State> {
    if q in s.hands && s.hands[q].Choosing? && c in s.hands[q].eligible then
      Some(s.(hands := s.hands[q := Pc.Charged(s.hands[q].msg, c)], consumers := AddToCount(s.consumers, c, 1)))
    else None
  }

  function Register(s: State, q: Queue, now: Instant): Option<State> {
    if q in s.hands && s.hands[q].Charged? then
      var c := s.hands[q].consumer;
      var m := s.hands[q].msg.(dispatchedAt := now, status := Status.InFlight);
      Some(s.(hands := s.hands[q := Sending(m, c)], inFlight := s.inFlight[m.id := Entry(m, c)],
              owner := Moved(s, m.id, AtFlight), delivered := s.delivered + multiset{(m.queue, m.id)}))
    else None
  }

  function Send(s: State, q: Queue): Option<State> {
    if q in s.hands && s.hands[q].Sending? && s.hands[q].consumer in s.mailboxes then
      var c, m := s.hands[q].consumer, s.hands[q].msg;
      var box := s.mailboxes[c];
      if |box.msgs| < box.capacity then
        Some(s.(hands := s.hands[q := Idle], mailboxes := s.mailboxes[c := box.(msgs := box.msgs + [m])]))
      else None
    else None
  }

  /** Cancellation while holding a message: it is dropped from memory. */
  function Abandon(s: State, q: Queue): Option<State> {
    if s.cancelled && q in s.hands && s.hands[q].Holding? then
      Some(s.(hands := s.hands[q := Stopped], owner := Moved(s, s.hands[q].msg.id, Gone)))
    else None
  }

  /** Cancellation while sending: `Unregister` takes whatever entry the ID has now. */
  function CancelSend(s: State, q: Queue, r: nat): Option<State> {
    if s.cancelled && q in s.hands && s.hands[q].Sending? && r !in s.removals then
      Some(Taken(WithHand(s, q, Stopped), s.hands[q].msg.id, r, Drop))
    else None
  }

  function Exhausted(s: State, q: Queue): Option<State> {
    if s.closed && q in s.hands && s.hands[q].Idle? && TopicOf(s, q) == [] then Some(WithHand(s, q, Stopped)) else None
  }

  // ---------------------------------------------------------------------------
  // AckManager
  // ---------------------------------------------------------------------------

  /** Why an entry leaves the in-flight map: a client's outcome for that ID, or one of the scanners. */
  datatype Cause = ByAck | ByNack | ByTimeout(threshold: Instant) | ByExpiry(cutoff: Instant)

  predicate Applies(cause: Cause, e: Entry) {
    match cause
    case ByAck => true
    case ByNack => true
    case ByTimeout(threshold) => e.msg.dispatchedAt < threshold
    case ByExpiry(cutoff) => IsDlqQueue(e.msg.queue) && e.msg.enqueueTime < cutoff
  }

  function AfterOf(cause: Cause): After { if cause.ByAck? || cause.ByExpiry? then Bury else Requeue }

  /** Delete under the lock; the entry is then owned by the operation that took it. */
  function Taken(s: State, id: MessageID, r: nat, after: After): State {
    if id in s.inFlight then
      var e := s.inFlight[id];
      s.(inFlight := s.inFlight - {id}, removals := s.removals[r := Removal(e, after)],
         owner := Moved(s, id, AtRemoval(r)), removed := s.removed + multiset{(e.msg.queue, id)})
    else s
  }

  function Take(s: State, id: MessageID, cause: Cause, r: nat): Option<State> {
    if id in s.inFlight && Applies(cause, s.inFlight[id]) && r !in s.removals then
      Some(Taken(s, id, r, AfterOf(cause)))
    else None
  }

  function TaskAfter(removal: Removal): Task {
    if removal.after.Bury? then Burying(removal.entry.msg) else Requeueing(removal.entry.msg)
  }

  /** The counter of the consumer recorded in the entry goes down, and the operation continues as task `t`. */
  function Decrement(s: State, r: nat, t: nat): Option<State> {
    if r in s.removals && !s.removals[r].after.Drop? && t !in s.tasks then
      var removal := s.removals[r];
      Some(s.(removals := s.removals - {r}, consumers := AddToCount(s.consumers, removal.entry.consumer, -1),
              tasks := s.tasks[t := TaskAfter(removal)], owner := Moved(s, removal.entry.msg.id, AtTask(t))))
    else None
  }

  /** `Unregister` ends with the decrement: the message is dropped from memory. */
  function Forget(s: State, r: nat): Option<State> {
    if r in s.removals && s.removals[r].after.Drop? then
      var e := s.removals[r].entry;
      Some(s.(removals := s.removals - {r}, consumers := AddToCount(s.consumers, e.consumer, -1),
              owner := Moved(s, e.msg.id, Gone)))
    else None
  }

  /** `nackEntry` re-enqueues; once the broker is closing, the message stays only in the log. */
  function Retry(s: State, t: nat, now: Instant): Option<State> {
    if t in s.tasks && s.tasks[t].Requeueing? then
      if s.closing then Some(WithoutTask(s, t, Gone))
      else Some(WithTask(s, t, Checked(AfterNack(s.tasks[t].msg, s.maxRetries, now))))
    else None
  }

  function ExpirePending(s: State, q: Queue, i: nat, cutoff: Instant, t: nat): Option<State> {
    var ms := TopicOf(s, q);
    if IsDlqQueue(q) && i < |ms| && ms[i].enqueueTime < cutoff && t !in s.tasks then
      Some(s.(topics := s.topics[q := ms[..i] + ms[i + 1..]], tasks := s.tasks[t := Burying(ms[i])],
              owner := Moved(s, ms[i].id, AtTask(t))))
    else None
  }

  // ---------------------------------------------------------------------------
  // Consumers, shutdown, compaction, restart
  // ---------------------------------------------------------------------------

  function Connect(s: State, c: ConsumerID, q: Queue, requested: int32): Option<State> {
    if c in s.known then None
    else
      var prefetch: int32 := if requested <= 0 then 1 else requested;
      Some(s.(consumers := s.consumers[c := Consumer(q, prefetch, 0)], known := s.known + {c},
              mailboxes := s.mailboxes[c := Mailbox(prefetch, [])]))
  }

  function Disconnect(s: State, c: ConsumerID): Option<State> {
    if c in s.consumers then Some(s.(consumers := s.consumers - {c})) else None
  }

  /** The stream goroutine forwards a message, or the disconnect path drains it; a `Take` by its ID may follow. */
  function Receive(s: State, c: ConsumerID): Option<State> {
    if c in s.mailboxes && s.mailboxes[c].msgs != [] then
      Some(s.(mailboxes := s.mailboxes[c := s.mailboxes[c].(msgs := s.mailboxes[c].msgs[1..])]))
    else None
  }

  function CompactLog(s: State, q: Queue): Option<State> {
    if q in s.topics && !s.closed then
      Some(s.(logs := s.logs[q := Compacted(LogOf(s, q))], torn := s.torn - {q}))
    else None
  }

  function Ids(ms: seq<Message>): set<MessageID> { set m | m in ms :: m.id }

  ghost predicate InTopicAt(topics: map<Queue, seq<Message>>, q: Queue, i: int, id: MessageID) {
    q in topics && 0 <= i < |topics[q]| && topics[q][i].id == id
  }

  /** The ID occurs at one position of one topic. */
  ghost predicate OnlyAt(topics: map<Queue, seq<Message>>, q: Queue, i: int, id: MessageID) {
    InTopicAt(topics, q, i, id) && forall p, j :: InTopicAt(topics, p, j, id) ==> p == q && j == i
  }

  function AllIds(topics: map<Queue, seq<Message>>): set<MessageID> {
    set q, m | q in topics && m in topics[q] :: m.id
  }

  ghost predicate Unique(topics: map<Queue, seq<Message>>, id: MessageID) { exists q, i :: OnlyAt(topics, q, i, id) }

  ghost function HolderOf(topics: map<Queue, seq<Message>>, id: MessageID): Queue
    requires Unique(topics, id)
  {
    var q, i :| OnlyAt(topics, q, i, id); q
  }

  ghost function Census(topics: map<Queue, seq<Message>>): map<MessageID, Place> {
    map id | id in AllIds(topics) && Unique(topics, id) :: AtTopic(HolderOf(topics, id))
  }

  /** `NewManager` over the log files: memory is rebuilt from the replays alone. */
  ghost function Boot(maxRetries: int32, logs: map<Queue, seq<Record>>, torn: set<Queue>, issued: set<MessageID>,
                      known: set<ConsumerID>, landed: set<(Queue, MessageID)>, buried: set<(Queue, MessageID)>): State
  {
    var topics := map q | q in logs :: Live(logs[q]);
    var owner := Census(topics);
    State(maxRetries, logs, torn, topics, map[], map[], map[], map[], map[], map[], false, false, false,
          issued, known, landed, buried, owner, AllIds(topics) - owner.Keys,
          map[], map[], {}, map[], multiset{}, multiset{})
  }

  /** The process stops at any point, cutting short any set of appends in progress, and starts again. */
  ghost function Restart(s: State, tears: map<Queue, Tear>, maxRetries: int32): State {
    Boot(maxRetries, s.logs, s.torn + tears.Keys, s.issued, s.known, s.landed, s.buried)
  }

  datatype Step =
    | SPublish(t: nat, m: Message)
    | SInitQueue(t: nat)
    | SWriteRecord(t: nat)
    | SFailWrite(t: nat)
    | SFailShort(t: nat, cut: nat)
    | SEnterTopic(t: nat)
    | SWriteTombstone(t: nat)
    | SStartDispatcher(q: Queue)
    | SInitForDequeue(q: Queue)
    | SDequeue(q: Queue)
    | SSnapshot(q: Queue)
    | SCharge(q: Queue, c: ConsumerID)
    | SRegister(q: Queue, now: Instant)
    | SSend(q: Queue)
    | SAbandon(q: Queue)
    | SCancelSend(q: Queue, r: nat)
    | SExhausted(q: Queue)
    | STake(id: MessageID, cause: Cause, r: nat)
    | SDecrement(r: nat, t: nat)
    | SForget(r: nat)
    | SRetry(t: nat, now: Instant)
    | SExpirePending(q: Queue, i: nat, cutoff: Instant, t: nat)
    | SConnect(c: ConsumerID, q: Queue, requested: int32)
    | SDisconnect(c: ConsumerID)
    | SReceive(c: ConsumerID)
    | SCompactLog(q: Queue)
    | SBeginShutdown
    | SCancel
    | SClose
    | SRestart(tears: map<Queue, Tear>, maxRetries: int32)

  /** Steps that write a log, or read them all again. */
  predicate IsLogStep(step: Step) { step.SWriteRecord? || step.SWriteTombstone? || step.SCompactLog? || step.SRestart? }

  ghost function LogNext(s: State, step: Step): Option<State> {
    match step
    case SWriteRecord(t) => WriteRecord(s, t)
    case SWriteTombstone(t) => WriteTombstone(s, t)
    case SCompactLog(q) => CompactLog(s, q)
    case SRestart(tears, maxRetries) => Some(Restart(s, tears, maxRetries))
    case _ => None
  }

  /** The other steps of `Manager.Enqueue`, and failing writes. */
  predicate IsManagerStep(step: Step) {
    step.SPublish? || step.SInitQueue? || step.SFailWrite? || step.SFailShort? || step.SEnterTopic?
  }

  ghost function ManagerNext(s: State, step: Step): Option<State> {
    match step
    case SPublish(t, m) => Publish(s, t, m)
    case SInitQueue(t) => InitQueue(s, t)
    case SFailWrite(t) => FailWrite(s, t)
    case SFailShort(t, cut) => FailShort(s, t)
    case SEnterTopic(t) => EnterTopic(s, t)
    case _ => None
  }

  /** Steps of `AckManager` and of the expiry of pending dead letters. */
  predicate IsOutcomeStep(step: Step) {
    step.STake? || step.SDecrement? || step.SForget? || step.SRetry? || step.SExpirePending?
  }

  ghost function OutcomeNext(s: State, step: Step): Option<State> {
    match step
    case STake(id, cause, r) => Take(s, id, cause, r)
    case SDecrement(r, t) => Decrement(s, r, t)
    case SForget(r) => Forget(s, r)
    case SRetry(t, now) => Retry(s, t, now)
    case SExpirePending(q, i, cutoff, t) => ExpirePending(s, q, i, cutoff, t)
    case _ => None
  }

  /** Steps of `Dispatcher.Run` that neither take, charge, register nor lose a message. */
  predicate IsQuietStep(step: Step) { step.SStartDispatcher? || step.SSnapshot? || step.SSend? || step.SExhausted? }

  ghost function QuietNext(s: State, step: Step): Option<State> {
    match step
    case SStartDispatcher(q) => StartDispatcher(s, q)
    case SSnapshot(q) => Snapshot(s, q)
    case SSend(q) => Send(s, q)
    case SExhausted(q) => Exhausted(s, q)
    case _ => None
  }

  /** The other steps of `Dispatcher.Run`. */
  predicate IsHandStep(step: Step) {
    || step.SInitForDequeue? || step.SDequeue? || step.SCharge? || step.SRegister? || step.SAbandon? || step.SCancelSend?
  }

  ghost function HandNext(s: State, step: Step): Option<State> {
    match step
    case SInitForDequeue(q) => InitForDequeue(s, q)
    case SDequeue(q) => Dequeue(s, q)
    case SCharge(q, c) => Charge(s, q, c)
    case SRegister(q, now) => Register(s, q, now)
    case SAbandon(q) => Abandon(s, q)
    case SCancelSend(q, r) => CancelSend(s, q, r)
    case _ => None
  }

  /** Consumers and shutdown. */
  ghost function OutsideNext(s: State, step: Step): Option<State> {
    match step
    case SConnect(c, q, requested) => Connect(s, c, q, requested)
    case SDisconnect(c) => Disconnect(s, c)
    case SReceive(c) => Receive(s, c)
    case SBeginShutdown => Some(s.(closing := true))
    case SCancel => Some(s.(cancelled := true))
    case SClose => Some(s.(closed := true))
    case _ => None
  }

  /** The state after a step, if the step is enabled. */
  ghost function Next(s: State, step: Step): Option<State> {
    if IsLogStep(step) then LogNext(s, step)
    else if IsManagerStep(step) then ManagerNext(s, step)
    else if IsOutcomeStep(step) then OutcomeNext(s, step)
    else if IsQuietStep(step) then QuietNext(s, step)
    else if IsHandStep(step) then HandNext(s, step)
    else OutsideNext(s, step)
  }

  /** The state after a whole run, if each of its steps is enabled. */
  ghost function Run(s: State, steps: seq<Step>): Option<State> {
    if steps == [] then Some(s)
    else
      var before := Run(s, steps[..|steps| - 1]);
      if before.None? then None else Next(before.value, steps[|steps| - 1])
  }

  /** All message IDs of a log's message records. */
  function PutPairs(logs: map<Queue, seq<Record>>): set<(Queue, MessageID)> {
    set q, i | q in logs && 0 <= i < |logs[q]| && IsPut(logs[q][i]) :: (q, logs[q][i].id)
  }

  function TombstonePairs(logs: map<Queue, seq<Record>>): set<(Queue, MessageID)> {
    set q, i | q in logs && 0 <= i < |logs[q]| && IsTombstone(logs[q][i]) :: (q, logs[q][i].id)
  }

  function LoggedIds(logs: map<Queue, seq<Record>>): set<MessageID> {
    set q, i | q in logs && 0 <= i < |logs[q]| :: logs[q][i].id
  }

  /** Logs as the broker writes them: each message record in the log of its own queue. */
  ghost predicate ProperLogs(logs: map<Queue, seq<Record>>) {
    forall q, i :: q in logs && 0 <= i < |logs[q]| && IsPut(logs[q][i]) ==> logs[q][i].msg.value.queue == q
  }

  /** First start over any proper logs of earlier sessions. */
  ghost predicate Initial(s: State) {
    && ProperLogs(s.logs)
    && s == Boot(s.maxRetries, s.logs, {}, s.issued, {}, PutPairs(s.logs) - TombstonePairs(s.logs), TombstonePairs(s.logs))
    && LoggedIds(s.logs) <= s.issued
  }

  ghost predicate Reachable(s: State, start: State, steps: seq<Step>) {
    Initial(start) && Run(start, steps) == Some(s)
  }
}
