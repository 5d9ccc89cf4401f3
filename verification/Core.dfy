/** Shared types of the broker: messages, their retry step and dead-letter queue names. */
module Core {

  datatype Option<+T> = None | Some(value: T)

  type byte = x: int | 0 <= x < 0x100
  type uint32 = x: int | 0 <= x < 0x1_0000_0000
  type int32 = x: int | -0x8000_0000 <= x < 0x8000_0000

  /** An instant, as nanoseconds since the Unix epoch. */
  type Instant = int

  type MessageID = string
  type Queue = string
  type ConsumerID = string

  datatype Status = Pending | InFlight | Acked | Nacked | Dead

  datatype Header = Header(key: string, value: string)

  datatype Message = Message(
    id: MessageID,
    queue: Queue,
    payload: seq<byte>,
    headers: seq<Header>,
    retryCount: int32,
    enqueueTime: Instant,
    dispatchedAt: Instant,
    status: Status)

  /** What a consumer sees of a message; it never changes. */
  datatype Content = Content(payload: seq<byte>, headers: seq<Header>)

  function ContentOf(m: Message): Content { Content(m.payload, m.headers) }

  /** A delivered message and the consumer that has it. */
  datatype Entry = Entry(msg: Message, consumer: ConsumerID)

  /** Two's complement wrap-around of a 32-bit increment. */
  function Increment32(n: int32): int32 {
    if n == 0x7FFF_FFFF then -0x8000_0000 else n + 1
  }

  function WithRetry(m: Message): Message {
    m.(retryCount := Increment32(m.retryCount), status := Pending)
  }

  const DLQ_SUFFIX: string := ".dlq"

  predicate IsDlqQueue(q: Queue) {
    |q| >= |DLQ_SUFFIX| && q[|q| - |DLQ_SUFFIX|..] == DLQ_SUFFIX
  }

  /** Dead-letter queues are exactly the queues named after another one with the suffix. */
  lemma IsDlqExactly(q: Queue)
    ensures IsDlqQueue(q) <==> exists p: Queue :: q == p + ".dlq"
  {
    if IsDlqQueue(q) {
      assert q == q[..|q| - 4] + ".dlq";
    }
    if p: Queue :| q == p + ".dlq" {
      assert q[|q| - 4..] == ".dlq";
    }
  }

  /** The message that a negative outcome puts back: a retry, or the dead letter once retries are used up. */
  function AfterNack(m: Message, maxRetries: int32, now: Instant): Message {
    if m.retryCount >= maxRetries then
      m.(queue := m.queue + DLQ_SUFFIX, enqueueTime := now, status := Dead)
    else
      WithRetry(m)
  }

  /** With retries left the message keeps queue and clock and is pending; otherwise it is dead, with a new clock. */
  lemma AfterNackExactly(m: Message, maxRetries: int32, now: Instant)
    ensures m.retryCount < maxRetries ==>
      AfterNack(m, maxRetries, now) == m.(retryCount := m.retryCount + 1, status := Pending)
    ensures m.retryCount >= maxRetries ==>
      AfterNack(m, maxRetries, now) == m.(queue := m.queue + ".dlq", enqueueTime := now, status := Dead)
  {
  }

  // ---------------------------------------------------------------------------
  // Closed form of the retry sequence
  // ---------------------------------------------------------------------------

  function One(b: bool): nat { if b then 1 else 0 }

  function Min(a: int, b: int): int { if a <= b then a else b }

  /** The retry budget: a negative limit behaves as zero. */
  function Budget(maxRetries: int32): nat { if maxRetries < 0 then 0 else maxRetries }

  /** The name of the dead-letter queue `depth` levels below `home`. */
  function DlqName(home: Queue, depth: nat): Queue {
    if depth == 0 then home else DlqName(home, depth - 1) + DLQ_SUFFIX
  }

  /** Retry count and queue of a message published on `home` after `k` negative outcomes. */
  function RetryAfter(k: nat, maxRetries: int32): int32 { Min(k, Budget(maxRetries)) }

  function QueueAfter(home: Queue, k: nat, maxRetries: int32): Queue {
    DlqName(home, if k <= Budget(maxRetries) then 0 else k - Budget(maxRetries))
  }

  ghost predicate HasForm(m: Message, home: Queue, k: nat, maxRetries: int32) {
    m.queue == QueueAfter(home, k, maxRetries) && m.retryCount == RetryAfter(k, maxRetries)
  }

  lemma {:induction false} DlqNameLength(home: Queue, depth: nat)
    ensures |DlqName(home, depth)| == |home| + 4 * depth
  {
    if depth > 0 { DlqNameLength(home, depth - 1); }
  }

  /** Each negative outcome takes the closed form at `k` to the closed form at `k + 1`, for every limit. */
  lemma NackAdvancesForm(m: Message, home: Queue, k: nat, maxRetries: int32, now: Instant)
    requires HasForm(m, home, k, maxRetries)
    ensures HasForm(AfterNack(m, maxRetries, now), home, k + 1, maxRetries)
    ensures AfterNack(m, maxRetries, now).id == m.id
    ensures AfterNack(m, maxRetries, now).retryCount >= m.retryCount
  {
  }

  /** `k` negative outcomes in a row, the i-th one read at clock `clock(i)`. */
  ghost function NackTimes(m: Message, k: nat, maxRetries: int32, clock: nat -> Instant): Message {
    if k == 0 then m else AfterNack(NackTimes(m, k - 1, maxRetries, clock), maxRetries, clock(k - 1))
  }

  /**
   After k negative outcomes a fresh message has retry count min(k, maxRetries) and sits max(0, k - maxRetries)
   dead-letter levels down; content and identity never change.
   */
  lemma {:induction false} RetryClosedForm(m: Message, k: nat, maxRetries: int32, clock: nat -> Instant)
    requires m.retryCount == 0
    ensures HasForm(NackTimes(m, k, maxRetries, clock), m.queue, k, maxRetries)
    ensures NackTimes(m, k, maxRetries, clock).id == m.id
    ensures NackTimes(m, k, maxRetries, clock).payload == m.payload
    ensures NackTimes(m, k, maxRetries, clock).headers == m.headers
  {
    if k > 0 {
      RetryClosedForm(m, k - 1, maxRetries, clock);
      NackAdvancesForm(NackTimes(m, k - 1, maxRetries, clock), m.queue, k - 1, maxRetries, clock(k - 1));
    }
  }
}
