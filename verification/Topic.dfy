/** The in-memory FIFO of one queue: a window that slides over a backing array, filtered in place. */
module Topic {
  import opened Core

  // ---------------------------------------------------------------------------
  // What a topic does to a plain sequence
  // ---------------------------------------------------------------------------

  function Matching(ms: seq<Message>, pred: Message -> bool): seq<Message> {
    if ms == [] then []
    else
      var init, last := ms[..|ms| - 1], ms[|ms| - 1];
      if pred(last) then Matching(init, pred) + [last] else Matching(init, pred)
  }

  function Negated(pred: Message -> bool): Message -> bool { m => !pred(m) }

  lemma MatchingAppend(ms: seq<Message>, m: Message, pred: Message -> bool)
    ensures Matching(ms + [m], pred) == if pred(m) then Matching(ms, pred) + [m] else Matching(ms, pred)
  {
    assert (ms + [m])[..|ms|] == ms;
  }

  lemma {:induction false} MatchingMembers(ms: seq<Message>, pred: Message -> bool)
    ensures forall m :: m in Matching(ms, pred) <==> m in ms && pred(m)
  {
    if ms != [] { MatchingMembers(ms[..|ms| - 1], pred); }
  }

  /** Removed and kept messages together are the messages there were. */
  lemma {:induction false} PartitionLosesNothing(ms: seq<Message>, pred: Message -> bool)
    ensures multiset(Matching(ms, pred)) + multiset(Matching(ms, Negated(pred))) == multiset(ms)
  {
    if ms != [] {
      var init, last := ms[..|ms| - 1], ms[|ms| - 1];
      PartitionLosesNothing(init, pred);
      assert ms == init + [last];
    }
  }

  // ---------------------------------------------------------------------------
  // The slice
  // ---------------------------------------------------------------------------

  lemma MatchingNext(ms: seq<Message>, n: nat, pred: Message -> bool)
    requires n < |ms|
    ensures Matching(ms[..n + 1], pred) == if pred(ms[n]) then Matching(ms[..n], pred) + [ms[n]] else Matching(ms[..n], pred)
  {
    assert ms[..n + 1] == ms[..n] + [ms[n]];
    MatchingAppend(ms[..n], ms[n], pred);
  }

  /** The matches among the first `n` messages. */
  function FirstMatching(ms: seq<Message>, n: nat, pred: Message -> bool): seq<Message>
    requires n <= |ms|
  {
    if n == 0 then []
    else
      var before := FirstMatching(ms, n - 1, pred);
      if pred(ms[n - 1]) then before + [ms[n - 1]] else before
  }

  lemma {:induction false} FirstMatchingIs(ms: seq<Message>, n: nat, pred: Message -> bool)
    requires n <= |ms|
    ensures FirstMatching(ms, n, pred) == Matching(ms[..n], pred)
  {
    if n > 0 {
      FirstMatchingIs(ms, n - 1, pred);
      MatchingNext(ms, n - 1, pred);
    }
  }

  lemma AllMatching(ms: seq<Message>, pred: Message -> bool)
    ensures FirstMatching(ms, |ms|, pred) == Matching(ms, pred)
  {
    FirstMatchingIs(ms, |ms|, pred);
    assert ms[..|ms|] == ms;
  }

  /** Splits the window `from..to` of `a`, writing the survivors over its front while reading it. */
  method FilterWindow(a: array<Message>, from: nat, to: nat, pred: Message -> bool)
    returns (kept: nat, removed: seq<Message>)
    requires from <= to <= a.Length
    modifies a
    ensures from <= kept <= to
    ensures a[from..kept] == Matching(old(a[from..to]), Negated(pred))
    ensures removed == Matching(old(a[from..to]), pred)
  {
    ghost var ms := a[from..to];
    kept, removed := from, [];
    for i := from to to
      invariant from <= kept <= i
      invariant a[from..kept] == FirstMatching(ms, i - from, Negated(pred))
      invariant removed == FirstMatching(ms, i - from, pred)
      invariant forall j :: i <= j < to ==> a[j] == ms[j - from]
    {
      var m := a[i];
      if pred(m) {
        removed := removed + [m];
      } else {
        KeepAt(a, from, kept, m);
        kept := kept + 1;
      }
    }
    AllMatching(ms, pred);
    AllMatching(ms, Negated(pred));
  }

  /** One survivor behind the ones kept so far: `append` to a slice that shares its array with the one being read. */
  method KeepAt(a: array<Message>, from: nat, kept: nat, m: Message)
    requires from <= kept < a.Length
    modifies a
    ensures a[from..kept + 1] == old(a[from..kept]) + [m]
    ensures forall j :: kept < j < a.Length ==> a[j] == old(a[j])
  {
    a[kept] := m;
  }

  class Topic {
    var backing: array<Message>
    var lo: nat
    var hi: nat
    var closed: bool

    ghost predicate Valid() reads this { lo <= hi <= backing.Length }

    function Contents(): seq<Message>
      requires Valid()
      reads this, backing
    {
      backing[lo..hi]
    }

    constructor ()
      ensures Valid() && Contents() == [] && !closed && fresh(backing)
    {
      backing := new Message[0];
      lo, hi, closed := 0, 0, false;
    }

    /** `append`: in place while the backing array has room behind the window, otherwise into a larger copy. */
    method Enqueue(m: Message)
      requires Valid()
      modifies this, backing
      ensures Valid() && Contents() == old(Contents()) + [m] && closed == old(closed)
      ensures backing == old(backing) || fresh(backing)
    {
      if hi == backing.Length {
        var ms := backing[lo..hi];
        var larger := new Message[2 * |ms| + 1](i => if 0 <= i < |ms| then ms[i] else m);
        assert larger[..|ms|] == ms;
        backing, lo, hi := larger, 0, |ms|;
      }
      backing[hi] := m;
      hi := hi + 1;
    }

    /** The wait loop ends only with a message or a closed topic. */
    method Dequeue() returns (r: Option<Message>)
      requires Valid() && (Contents() != [] || closed)
      modifies this`lo
      ensures Valid()
      ensures r == if old(Contents()) == [] then None else Some(old(Contents())[0])
      ensures Contents() == if old(Contents()) == [] then [] else old(Contents())[1..]
    {
      if lo == hi {
        r := None;
      } else {
        r := Some(backing[lo]);
        lo := lo + 1;
      }
    }

    /** Keeps the survivors by overwriting the window it is reading; both parts keep their order. */
    method RemoveIf(pred: Message -> bool) returns (removed: seq<Message>)
      requires Valid()
      modifies this`hi, backing
      ensures Valid()
      ensures removed == Matching(old(Contents()), pred)
      ensures Contents() == Matching(old(Contents()), Negated(pred))
      ensures multiset(removed) + multiset(Contents()) == multiset(old(Contents()))
    {
      ghost var ms := Contents();
      var kept;
      kept, removed := FilterWindow(backing, lo, hi, pred);
      PartitionLosesNothing(ms, pred);
      hi := kept;
    }

    method Close()
      requires Valid()
      modifies this`closed
      ensures Valid() && closed && Contents() == old(Contents())
    {
      closed := true;
    }
  }

  // ---------------------------------------------------------------------------
  // Any sequence of operations
  // ---------------------------------------------------------------------------

  datatype Op = Enqueue(m: Message) | Dequeue | RemoveIf(pred: Message -> bool)

  /** Contents, and everything that ever went in, came out at the front, and was removed. */
  datatype Ledger = Ledger(contents: seq<Message>, entered: seq<Message>, dequeued: seq<Message>, removed: seq<Message>)

  /** One operation on the specification of the class. */
  ghost function Apply(l: Ledger, op: Op): Ledger {
    match op
    case Enqueue(m) => l.(contents := l.contents + [m], entered := l.entered + [m])
    case Dequeue =>
      if l.contents == [] then l
      else l.(contents := l.contents[1..], dequeued := l.dequeued + [l.contents[0]])
    case RemoveIf(pred) =>
      l.(contents := Matching(l.contents, Negated(pred)), removed := l.removed + Matching(l.contents, pred))
  }

  ghost function ApplyAll(l: Ledger, ops: seq<Op>): Ledger {
    if ops == [] then l else Apply(ApplyAll(l, ops[..|ops| - 1]), ops[|ops| - 1])
  }

  /** Order-preserving embedding: `picks` selects positions of `whole` in increasing order. */
  ghost predicate Embeds(part: seq<Message>, whole: seq<Message>, picks: seq<int>) {
    && |picks| == |part|
    && (forall i :: 0 <= i < |picks| ==> 0 <= picks[i] < |whole| && whole[picks[i]] == part[i])
    && (forall i, j :: 0 <= i < j < |picks| ==> picks[i] < picks[j])
  }

  ghost predicate InOrder(part: seq<Message>, whole: seq<Message>) { exists picks :: Embeds(part, whole, picks) }

  lemma InOrderAppend(part: seq<Message>, whole: seq<Message>, m: Message)
    requires InOrder(part, whole)
    ensures InOrder(part + [m], whole + [m]) && InOrder(part, whole + [m])
  {
    var picks :| Embeds(part, whole, picks);
    assert Embeds(part + [m], whole + [m], picks + [|whole|]);
    assert Embeds(part, whole + [m], picks);
  }

  lemma InOrderTransitive(a: seq<Message>, b: seq<Message>, c: seq<Message>)
    requires InOrder(a, b) && InOrder(b, c)
    ensures InOrder(a, c)
  {
    var p :| Embeds(a, b, p);
    var r :| Embeds(b, c, r);
    var picks := seq(|p|, i requires 0 <= i < |p| => r[p[i]]);
    assert Embeds(a, c, picks);
  }

  lemma {:induction false} MatchingInOrder(front: seq<Message>, ms: seq<Message>, pred: Message -> bool)
    ensures InOrder(front + Matching(ms, pred), front + ms)
  {
    if ms == [] {
      assert Embeds(front, front, seq(|front|, i => i));
      assert front + ms == front && front + Matching(ms, pred) == front;
    } else {
      var init, last := ms[..|ms| - 1], ms[|ms| - 1];
      MatchingInOrder(front, init, pred);
      InOrderAppend(front + Matching(init, pred), front + init, last);
      assert front + ms == front + init + [last];
      assert front + (Matching(init, pred) + [last]) == front + Matching(init, pred) + [last];
    }
  }

  ghost predicate Fifo(l: Ledger) {
    && multiset(l.entered) == multiset(l.contents) + multiset(l.dequeued) + multiset(l.removed)
    && InOrder(l.dequeued + l.contents, l.entered)
  }

  lemma FifoEnqueue(l: Ledger, m: Message)
    requires Fifo(l)
    ensures Fifo(Apply(l, Op.Enqueue(m)))
  {
    InOrderAppend(l.dequeued + l.contents, l.entered, m);
    assert l.dequeued + (l.contents + [m]) == l.dequeued + l.contents + [m];
  }

  lemma FifoDequeue(l: Ledger)
    requires Fifo(l)
    ensures Fifo(Apply(l, Op.Dequeue))
  {
    if l.contents != [] {
      assert l.contents == [l.contents[0]] + l.contents[1..];
      assert l.dequeued + [l.contents[0]] + l.contents[1..] == l.dequeued + l.contents;
    }
  }

  lemma FifoRemoveIf(l: Ledger, pred: Message -> bool)
    requires Fifo(l)
    ensures Fifo(Apply(l, Op.RemoveIf(pred)))
  {
    PartitionLosesNothing(l.contents, pred);
    MatchingInOrder(l.dequeued, l.contents, Negated(pred));
    InOrderTransitive(l.dequeued + Matching(l.contents, Negated(pred)), l.dequeued + l.contents, l.entered);
  }

  lemma FifoStep(l: Ledger, op: Op)
    requires Fifo(l)
    ensures Fifo(Apply(l, op))
  {
    match op
    case Enqueue(m) => FifoEnqueue(l, m);
    case Dequeue => FifoDequeue(l);
    case RemoveIf(pred) => FifoRemoveIf(l, pred);
  }

  /**
   Over any sequence of operations no message is lost or duplicated, and what was dequeued followed by what remains
   is in the order of entry.
   */
  lemma {:induction false} FifoOverAllRuns(ops: seq<Op>)
    ensures Fifo(ApplyAll(Ledger([], [], [], []), ops))
  {
    if ops == [] {
      var none: seq<Message> := [];
      assert none + none == none;
      assert Embeds(none, none, []);
    } else {
      var init := ops[..|ops| - 1];
      FifoOverAllRuns(init);
      FifoStep(ApplyAll(Ledger([], [], [], []), init), ops[|ops| - 1]);
    }
  }

  /** What an operation returned: the message dequeued, if any, and those removed. */
  datatype Result = Result(dequeued: seq<Message>, removed: seq<Message>)

  /** One operation on a topic; a dequeue on an empty, open topic is still waiting when the next operation comes. */
  method Perform(t: Topic, op: Op, ghost l: Ledger) returns (res: Result)
    requires t.Valid() && t.Contents() == l.contents
    modifies t, t.backing
    ensures t.Valid() && t.Contents() == Apply(l, op).contents
    ensures Apply(l, op).dequeued == l.dequeued + res.dequeued && Apply(l, op).removed == l.removed + res.removed
    ensures t.backing == old(t.backing) || fresh(t.backing)
  {
    res := Result([], []);
    match op
    case Enqueue(m) => t.Enqueue(m);
    case Dequeue =>
      if t.lo < t.hi {
        var front := t.Dequeue();
        res := Result([front.value], []);
      }
    case RemoveIf(pred) =>
      var removed := t.RemoveIf(pred);
      res := Result([], removed);
  }

  /**
   Any sequence of operations on a new topic object: it holds, has handed out and has removed what the ledger says, and
   the ledger is first in, first out.
   */
  method Drive(ops: seq<Op>) returns (t: Topic, res: Result)
    ensures fresh(t) && t.Valid()
    ensures var l := ApplyAll(Ledger([], [], [], []), ops);
      t.Contents() == l.contents && res.dequeued == l.dequeued && res.removed == l.removed && Fifo(l)
  {
    t := new Topic();
    res := Result([], []);
    ghost var l := Ledger([], [], [], []);
    for n := 0 to |ops|
      invariant fresh(t) && fresh(t.backing) && t.Valid()
      invariant l == ApplyAll(Ledger([], [], [], []), ops[..n])
      invariant t.Contents() == l.contents && res.dequeued == l.dequeued && res.removed == l.removed
    {
      assert ops[..n + 1][..n] == ops[..n];
      var one := Perform(t, ops[n], l);
      l := Apply(l, ops[n]);
      res := Result(res.dequeued + one.dequeued, res.removed + one.removed);
    }
    assert ops[..|ops|] == ops;
    FifoOverAllRuns(ops);
  }
}
