/**
 The history of every message published in a session: the closed form of its retries wherever it is held, the exact
 copies it leaves in each log, how often it can be delivered on a queue, and one outcome per delivery.
 */
module History {
  import opened Core
  import opened Log
  import opened Broker
  import opened Ownership

  // ---------------------------------------------------------------------------
  // Copies of a message
  // ---------------------------------------------------------------------------

  /** The retry counts of the copies of `id`, in order. */
  function Copies(ms: seq<Message>, id: MessageID): seq<int32> {
    if ms == [] then []
    else
      var init, last := ms[..|ms| - 1], ms[|ms| - 1];
      if last.id == id then Copies(init, id) + [last.retryCount] else Copies(init, id)
  }

  /** The copies that the first `n` records written for a message published on `home` leave on `q`. */
  function Trail(home: Queue, n: nat, q: Queue, maxRetries: int32): seq<int32> {
    if n == 0 then []
    else if QueueAfter(home, n - 1, maxRetries) == q then Trail(home, n - 1, q, maxRetries) + [RetryAfter(n - 1, maxRetries)]
    else Trail(home, n - 1, q, maxRetries)
  }

  lemma CopiesAppend(ms: seq<Message>, m: Message, id: MessageID)
    ensures Copies(ms + [m], id) == if m.id == id then Copies(ms, id) + [m.retryCount] else Copies(ms, id)
  {
    assert (ms + [m])[..|ms|] == ms;
  }

  lemma {:induction false} CopiesNone(ms: seq<Message>, id: MessageID)
    requires id !in Ids(ms)
    ensures Copies(ms, id) == []
  {
    if ms != [] {
      var init, last := ms[..|ms| - 1], ms[|ms| - 1];
      assert ms == init + [last];
      IdsAppend(init, last);
      CopiesNone(init, id);
    }
  }

  lemma {:induction false} CopiesWithout(ms: seq<Message>, dead: set<MessageID>, id: MessageID)
    requires id !in dead
    ensures Copies(Without(ms, dead), id) == Copies(ms, id)
  {
    if ms != [] {
      var init, last := ms[..|ms| - 1], ms[|ms| - 1];
      CopiesWithout(init, dead, id);
      CopiesAppend(Without(init, dead), last, id);
    }
  }

  function UpTo(n: nat): seq<int> { seq(n, i => i) }

  /** On its home queue a message leaves retry counts 0, 1, 2, ... up to the retry budget. */
  lemma {:induction false} TrailAtHome(home: Queue, n: nat, maxRetries: int32)
    ensures Trail(home, n, home, maxRetries) == UpTo(Min(n, Budget(maxRetries) + 1))
  {
    if n > 0 {
      TrailAtHome(home, n - 1, maxRetries);
      var k := n - 1;
      var depth := if k <= Budget(maxRetries) then 0 else k - Budget(maxRetries);
      DlqNameLength(home, depth);
      assert QueueAfter(home, k, maxRetries) == home <==> depth == 0;
    }
  }

  /** On each dead-letter queue it leaves one copy, with the budget as its retry count. */
  lemma {:induction false} TrailOnDlq(home: Queue, n: nat, depth: nat, maxRetries: int32)
    requires depth > 0
    ensures Trail(home, n, DlqName(home, depth), maxRetries)
         == if n > Budget(maxRetries) + depth then [Budget(maxRetries)] else []
  {
    if n > 0 {
      TrailOnDlq(home, n - 1, depth, maxRetries);
      var k := n - 1;
      var at := if k <= Budget(maxRetries) then 0 else k - Budget(maxRetries);
      DlqNameLength(home, depth);
      DlqNameLength(home, at);
      assert QueueAfter(home, k, maxRetries) == DlqName(home, depth) <==> at == depth;
    }
  }

  /** The part of the trail that landed: `lost` holds the numbers of the writes that went behind a torn tail. */
  function LandedTrail(home: Queue, n: nat, q: Queue, maxRetries: int32, id: MessageID, lost: set<(MessageID, nat)>): seq<int32> {
    if n == 0 then []
    else
      var before := LandedTrail(home, n - 1, q, maxRetries, id, lost);
      if QueueAfter(home, n - 1, maxRetries) == q && (id, n - 1) !in lost then before + [RetryAfter(n - 1, maxRetries)]
      else before
  }

  lemma {:induction false} LandedTrailSame(home: Queue, n: nat, q: Queue, maxRetries: int32, id: MessageID,
                                           lost: set<(MessageID, nat)>, lost': set<(MessageID, nat)>)
    requires forall k: nat :: k < n ==> ((id, k) in lost <==> (id, k) in lost')
    ensures LandedTrail(home, n, q, maxRetries, id, lost) == LandedTrail(home, n, q, maxRetries, id, lost')
  {
    if n > 0 {
      LandedTrailSame(home, n - 1, q, maxRetries, id, lost, lost');
      assert (id, n - 1) in lost <==> (id, n - 1) in lost';
    }
  }

  lemma {:induction false} NothingLost(home: Queue, n: nat, q: Queue, maxRetries: int32, id: MessageID, lost: set<(MessageID, nat)>)
    requires forall k: nat :: k < n ==> (id, k) !in lost
    ensures LandedTrail(home, n, q, maxRetries, id, lost) == Trail(home, n, q, maxRetries)
  {
    if n > 0 {
      NothingLost(home, n - 1, q, maxRetries, id, lost);
      assert (id, n - 1) !in lost;
    }
  }

  /** The numbers below `n` of the writes that were not lost. */
  function Surviving(n: nat, id: MessageID, lost: set<(MessageID, nat)>): seq<int> {
    if n == 0 then [] else if (id, n - 1) in lost then Surviving(n - 1, id, lost) else Surviving(n - 1, id, lost) + [n - 1]
  }

  lemma {:induction false} AllSurvive(n: nat, id: MessageID, lost: set<(MessageID, nat)>)
    requires forall k: nat :: k < n ==> (id, k) !in lost
    ensures Surviving(n, id, lost) == UpTo(n)
  {
    if n > 0 {
      AllSurvive(n - 1, id, lost);
      assert (id, n - 1) !in lost;
    }
  }

  lemma AtHomeExactly(home: Queue, k: nat, maxRetries: int32)
    ensures QueueAfter(home, k, maxRetries) == home <==> k <= Budget(maxRetries)
  {
    if k > Budget(maxRetries) { DlqNameLength(home, k - Budget(maxRetries)); }
  }

  /** On its home queue a message leaves the retry counts 0, 1, 2, ... whose writes landed. */
  lemma {:induction false} LandedAtHome(home: Queue, n: nat, maxRetries: int32, id: MessageID, lost: set<(MessageID, nat)>)
    ensures LandedTrail(home, n, home, maxRetries, id, lost) == Surviving(Min(n, Budget(maxRetries) + 1), id, lost)
  {
    if n > 0 {
      LandedAtHome(home, n - 1, maxRetries, id, lost);
      AtHomeExactly(home, n - 1, maxRetries);
    }
  }

  /** On each dead-letter queue it leaves its one copy, if that write landed. */
  lemma {:induction false} LandedOnDlq(home: Queue, n: nat, depth: nat, maxRetries: int32, id: MessageID, lost: set<(MessageID, nat)>)
    requires depth > 0
    ensures LandedTrail(home, n, DlqName(home, depth), maxRetries, id, lost)
         == if n > Budget(maxRetries) + depth && (id, Budget(maxRetries) + depth) !in lost then [Budget(maxRetries)] else []
  {
    if n > 0 {
      LandedOnDlq(home, n - 1, depth, maxRetries, id, lost);
      var k := n - 1;
      var at := if k <= Budget(maxRetries) then 0 else k - Budget(maxRetries);
      DlqNameLength(home, depth);
      DlqNameLength(home, at);
      assert QueueAfter(home, k, maxRetries) == DlqName(home, depth) <==> at == depth;
    }
  }

  // ---------------------------------------------------------------------------
  // The invariant
  // ---------------------------------------------------------------------------

  ghost predicate HoldsMsg(s: State, p: Place, m: Message) {
    match p
    case AtTask(t) => t in s.tasks && s.tasks[t].msg == m
    case AtRemoval(r) => r in s.removals && s.removals[r].entry.msg == m
    case AtTopic(q) => q in s.topics && m in s.topics[q]
    case AtHand(q) => q in s.hands && InHand(s.hands[q]) && s.hands[q].msg == m
    case AtFlight => m.id in s.inFlight && s.inFlight[m.id].msg == m
    case Gone => false
  }

  /** The message is inside `Enqueue` and its record is still to be written. */
  ghost predicate Ahead(s: State, p: Place) {
    p.AtTask? && p.task in s.tasks && (s.tasks[p.task].Checked? || s.tasks[p.task].Ready?)
  }

  ghost predicate Fits(s: State, p: Place, m: Message) {
    && m.id in s.home && m.id in s.writes
    && if Ahead(s, p) then HasForm(m, s.home[m.id], s.writes[m.id], s.maxRetries)
       else s.writes[m.id] >= 1 && HasForm(m, s.home[m.id], s.writes[m.id] - 1, s.maxRetries)
  }

  /** Retry count and queue follow the closed form, with the number of records written as its argument. */
  ghost predicate Formed(s: State) {
    forall p, m :: HoldsMsg(s, p, m) && m.id in s.home ==> Fits(s, p, m)
  }

  ghost predicate Tracked(s: State) {
    && (forall id :: id in s.home ==> id in s.writes && id in s.owner && id !in s.dups)
    && (forall q, id :: (q, id) in s.delivered ==> id in s.issued)
    && (forall id, k :: (id, k) in s.swallowed ==> id in s.issued && id in s.writes && k < s.writes[id])
  }

  /** What the writes for the message that landed on `q` left there. */
  ghost function LandedOn(s: State, q: Queue, id: MessageID): seq<int32>
    requires id in s.home && id in s.writes
  {
    LandedTrail(s.home[id], s.writes[id], q, s.maxRetries, id, s.swallowed)
  }

  ghost predicate CopiesExact(s: State) {
    forall id, q :: id in s.home && id in s.writes && (q, id) !in s.buried ==>
      Copies(Messages(LogOf(s, q)), id) == LandedOn(s, q, id)
  }

  /** A message that is still somewhere in memory has a tombstone nowhere. */
  ghost predicate AliveUnburied(s: State) {
    forall id, q :: id in s.home && id in s.owner && s.owner[id] != Gone ==> (q, id) !in s.buried
  }

  /** The message is on its way to a delivery on `q`. */
  ghost predicate Awaiting(s: State, id: MessageID, q: Queue) {
    && id in s.owner
    && match s.owner[id]
       case AtTopic(p) => p == q
       case AtHand(p) => p == q
       case AtTask(t) => t in s.tasks && s.tasks[t].Logged? && s.tasks[t].msg.queue == q
       case _ => false
  }

  ghost predicate DeliveriesPaid(s: State) {
    forall id, q :: id in s.home && id in s.writes ==>
      s.delivered[(q, id)] + One(Awaiting(s, id, q)) <= |Trail(s.home[id], s.writes[id], q, s.maxRetries)|
  }

  ghost predicate Outstanding(s: State, q: Queue, id: MessageID) { id in s.inFlight && s.inFlight[id].msg.queue == q }

  /** Each registration is removed at most once; exactly once or still outstanding if the ID is unique in memory. */
  ghost predicate OutcomesMatch(s: State) {
    forall q, id ::
      && s.removed[(q, id)] + One(Outstanding(s, q, id)) <= s.delivered[(q, id)]
      && (id !in s.dups ==> s.removed[(q, id)] + One(Outstanding(s, q, id)) == s.delivered[(q, id)])
  }

  /** All parts except the outcomes. */
  ghost predicate Settled(s: State) {
    Tracked(s) && Formed(s) && CopiesExact(s) && AliveUnburied(s) && DeliveriesPaid(s)
  }

  ghost predicate Historic(s: State) {
    Settled(s) && OutcomesMatch(s)
  }

  // ---------------------------------------------------------------------------
  // Frames
  // ---------------------------------------------------------------------------

  lemma FormedFrame(s: State, s': State)
    requires Formed(s) && s'.home == s.home && s'.writes == s.writes && s'.maxRetries == s.maxRetries
    requires forall p, m :: HoldsMsg(s', p, m) ==> HoldsMsg(s, p, m) && (Ahead(s', p) <==> Ahead(s, p))
    ensures Formed(s')
  {
    forall p, m | HoldsMsg(s', p, m) && m.id in s'.home ensures Fits(s', p, m) { assert Fits(s, p, m); }
  }

  lemma CopiesFrame(s: State, s': State)
    requires CopiesExact(s) && s'.home == s.home && s'.writes == s.writes && s'.maxRetries == s.maxRetries
    requires s'.logs == s.logs && s.buried <= s'.buried && s'.swallowed == s.swallowed
    ensures CopiesExact(s')
  {
    forall id, q | id in s'.home && id in s'.writes && (q, id) !in s'.buried
      ensures Copies(Messages(LogOf(s', q)), id) == LandedOn(s', q, id)
    {
      assert LogOf(s', q) == LogOf(s, q);
    }
  }

  lemma DeliveriesFrame(s: State, s': State)
    requires DeliveriesPaid(s) && s'.home == s.home && s'.writes == s.writes && s'.maxRetries == s.maxRetries
    requires s'.delivered == s.delivered
    requires forall id, q :: id in s.home && Awaiting(s', id, q) ==> Awaiting(s, id, q)
    ensures DeliveriesPaid(s')
  {
    forall id, q | id in s'.home && id in s'.writes
      ensures s'.delivered[(q, id)] + One(Awaiting(s', id, q)) <= |Trail(s'.home[id], s'.writes[id], q, s'.maxRetries)|
    {
      assert Awaiting(s', id, q) ==> Awaiting(s, id, q);
    }
  }

  lemma OutcomesFrame(s: State, s': State)
    requires OutcomesMatch(s) && s'.inFlight == s.inFlight && s'.delivered == s.delivered && s'.removed == s.removed
    requires s'.dups == s.dups
    ensures OutcomesMatch(s')
  {
    forall q, id
      ensures s'.removed[(q, id)] + One(Outstanding(s', q, id)) <= s'.delivered[(q, id)]
      ensures id !in s'.dups ==> s'.removed[(q, id)] + One(Outstanding(s', q, id)) == s'.delivered[(q, id)]
    {
      assert Outstanding(s', q, id) <==> Outstanding(s, q, id);
    }
  }

  /** Nothing that holds a message, and nothing recorded, changed. */
  lemma HistoricFrame(s: State, s': State)
    requires Historic(s)
    requires s'.tasks == s.tasks && s'.removals == s.removals && s'.inFlight == s.inFlight
    requires forall p, m :: HoldsMsg(s', p, m) ==> HoldsMsg(s, p, m)
    requires s'.owner == s.owner && s'.dups == s.dups && s'.logs == s.logs && s'.buried == s.buried
    requires s'.swallowed == s.swallowed
    requires s'.home == s.home && s'.writes == s.writes && s'.maxRetries == s.maxRetries
    requires s'.delivered == s.delivered && s'.removed == s.removed && s'.issued == s.issued
    ensures Historic(s')
  {
    FormedFrame(s, s');
    CopiesFrame(s, s');
    DeliveriesFrame(s, s');
    OutcomesFrame(s, s');
  }

  lemma HoldsMsgHolds(s: State, p: Place, m: Message)
    requires HoldsMsg(s, p, m)
    ensures Holds(s, p, m.id)
  {
  }

  lemma FormedMove(s: State, s': State, x: MessageID, b: Place)
    requires Formed(s) && HoldersOwn(s') && s'.maxRetries == s.maxRetries
    requires forall id :: id in s'.home && id != x ==> id in s.home && s'.home[id] == s.home[id]
    requires forall id :: id in s'.home && id != x && id in s.writes ==> id in s'.writes && s'.writes[id] == s.writes[id]
    requires forall p, m :: HoldsMsg(s', p, m) && m.id != x ==> HoldsMsg(s, p, m) && (Ahead(s', p) <==> Ahead(s, p))
    requires x in s'.home ==> x !in s'.dups && x in s'.owner && s'.owner[x] == b
    requires forall m :: HoldsMsg(s', b, m) && m.id == x && x in s'.home ==> Fits(s', b, m)
    ensures Formed(s')
  {
    forall p, m | HoldsMsg(s', p, m) && m.id in s'.home ensures Fits(s', p, m) {
      HoldsMsgHolds(s', p, m);
      if m.id != x { assert Fits(s, p, m); }
    }
  }

  /** Message `x` moves from `a` to `b` without a new claim to a delivery. */
  lemma SettledMove(s: State, s': State, x: MessageID, a: Place, b: Place)
    requires Settled(s) && Owned(s) && Formed(s')
    requires Holds(s, a, x)
    requires s'.owner == Moved(s, x, b) && s'.dups == s.dups && s'.logs == s.logs && s'.buried == s.buried
    requires s'.home == s.home && s'.writes == s.writes && s'.maxRetries == s.maxRetries
    requires s'.delivered == s.delivered && s'.issued == s.issued && s'.swallowed == s.swallowed
    requires forall id, q :: id in s.home && Awaiting(s', id, q) ==> Awaiting(s, id, q)
    ensures Settled(s')
  {
    assert x !in s.dups ==> x in s.owner && s.owner[x] == a;
    CopiesFrame(s, s');
    DeliveriesFrame(s, s');
    forall id, q | id in s'.home && id in s'.owner && s'.owner[id] != Gone ensures (q, id) !in s'.buried {
      assert x !in s.dups ==> s.owner[x] == a;
    }
  }
}
