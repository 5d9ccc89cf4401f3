/** First in, first out, in every run of the broker: each dispatcher takes messages in the order in which they entered. */
module Order {
  import opened Core
  import opened Log
  import opened Broker
  import opened Ownership
  import opened Theorems
  import opened Safety
  import Topic

  /** A topic as a session starts. */
  ghost function AtStart(s: State, q: Queue): Topic.Ledger { Topic.Ledger(Live(LogOf(s, q)), Live(LogOf(s, q)), [], []) }

  /** One message expires. */
  function Dropped(l: Topic.Ledger, i: nat): Topic.Ledger
    requires i < |l.contents|
  {
    l.(contents := l.contents[..i] + l.contents[i + 1..], removed := l.removed + [l.contents[i]])
  }

  /** What a step taken in `s` does to the ledger of the topic of `q`. */
  ghost function Entered(l: Topic.Ledger, s: State, step: Step, q: Queue): Topic.Ledger {
    match step
    case SEnterTopic(t) =>
      if t in s.tasks && s.tasks[t].msg.queue == q then Topic.Apply(l, Topic.Op.Enqueue(s.tasks[t].msg)) else l
    case SDequeue(p) => if p == q then Topic.Apply(l, Topic.Op.Dequeue) else l
    case SExpirePending(p, i, cutoff, t) => if p == q && i < |l.contents| then Dropped(l, i) else l
    case SRestart(tears, maxRetries) => AtStart(s, q)
    case _ => l
  }

  /** The ledger of the topic of `q` in the last session of a run. */
  ghost function LedgerOf(start: State, steps: seq<Step>, q: Queue): Topic.Ledger {
    if steps == [] then AtStart(start, q)
    else
      var init := steps[..|steps| - 1];
      var before := Run(start, init);
      if before.None? then LedgerOf(start, init, q) else Entered(LedgerOf(start, init, q), before.value, steps[|steps| - 1], q)
  }

  // ---------------------------------------------------------------------------
  // Topics
  // ---------------------------------------------------------------------------

  lemma SameLog(s: State, step: Step, s': State)
    requires IsLogStep(step) && !step.SRestart? && LogNext(s, step) == Some(s')
    ensures s'.topics == s.topics
  {
    LogStepFrame(s, step, s');
  }

  lemma LoadsNothing(s: State, p: Queue, q: Queue)
    requires LazyQueues(s)
    ensures p !in s.topics && p == q ==> Live(LogOf(s, p)) == []
    ensures (if q in Loaded(s, p) then Loaded(s, p)[q] else []) == TopicOf(s, q)
  {
    assert Live([]) == [];
  }

  lemma SameManager(s: State, step: Step, s': State, q: Queue)
    requires LazyQueues(s) && IsManagerStep(step) && !step.SEnterTopic? && ManagerNext(s, step) == Some(s')
    ensures TopicOf(s', q) == TopicOf(s, q)
  {
    if step.SInitQueue? { LoadsNothing(s, s.tasks[step.t].msg.queue, q); }
  }

  lemma SameOutcome(s: State, step: Step, s': State, q: Queue)
    requires IsOutcomeStep(step) && OutcomeNext(s, step) == Some(s') && (step.SExpirePending? ==> step.q != q)
    ensures TopicOf(s', q) == TopicOf(s, q)
  {
  }

  lemma SameQuiet(s: State, step: Step, s': State)
    requires IsQuietStep(step) && QuietNext(s, step) == Some(s')
    ensures s'.topics == s.topics
  {
  }

  lemma SameHand(s: State, step: Step, s': State, q: Queue)
    requires LazyQueues(s) && IsHandStep(step) && HandNext(s, step) == Some(s') && (step.SDequeue? ==> step.q != q)
    ensures TopicOf(s', q) == TopicOf(s, q)
  {
    if step.SInitForDequeue? { LoadsNothing(s, step.q, q); }
  }

  lemma SameOutside(s: State, step: Step, s': State)
    requires OutsideNext(s, step) == Some(s')
    ensures s'.topics == s.topics
  {
  }

  /** Topics change by entering, dequeuing and expiring only. */
  lemma SameTopic(s: State, step: Step, s': State, q: Queue)
    requires LazyQueues(s) && !step.SRestart? && Next(s, step) == Some(s')
    requires !step.SEnterTopic? && !(step.SDequeue? && step.q == q) && !(step.SExpirePending? && step.q == q)
    ensures TopicOf(s', q) == TopicOf(s, q)
  {
    if IsLogStep(step) {
      SameLog(s, step, s');
    } else if IsManagerStep(step) {
      SameManager(s, step, s', q);
    } else if IsOutcomeStep(step) {
      SameOutcome(s, step, s', q);
    } else if IsQuietStep(step) {
      SameQuiet(s, step, s');
    } else if IsHandStep(step) {
      SameHand(s, step, s', q);
    } else {
      SameOutside(s, step, s');
    }
  }

  // ---------------------------------------------------------------------------
  // The ledger
  // ---------------------------------------------------------------------------

  ghost predicate Kept(s: State, l: Topic.Ledger, q: Queue) { l.contents == TopicOf(s, q) && Topic.Fifo(l) }

  lemma GapInOrder(front: seq<Message>, ms: seq<Message>, i: nat)
    requires i < |ms|
    ensures Topic.InOrder(front + (ms[..i] + ms[i + 1..]), front + ms)
  {
    var picks := seq(|front| + |ms| - 1, k => if k < |front| + i then k else k + 1);
    assert Topic.Embeds(front + (ms[..i] + ms[i + 1..]), front + ms, picks);
  }

  lemma FifoDropped(l: Topic.Ledger, i: nat)
    requires Topic.Fifo(l) && i < |l.contents|
    ensures Topic.Fifo(Dropped(l, i))
  {
    GapInOrder(l.dequeued, l.contents, i);
    Topic.InOrderTransitive(l.dequeued + Dropped(l, i).contents, l.dequeued + l.contents, l.entered);
    assert l.contents == l.contents[..i] + [l.contents[i]] + l.contents[i + 1..];
  }

  lemma FifoFresh(s: State, q: Queue)
    ensures Topic.Fifo(AtStart(s, q))
  {
    var ms := Live(LogOf(s, q));
    assert Topic.Embeds(ms, ms, seq(|ms|, i => i));
    assert [] + ms == ms;
  }

  lemma KeptEnter(s: State, l: Topic.Ledger, t: nat, s': State, q: Queue)
    requires Kept(s, l, q) && EnterTopic(s, t) == Some(s')
    ensures Kept(s', Entered(l, s, SEnterTopic(t), q), q)
  {
    if s.tasks[t].msg.queue == q { Topic.FifoStep(l, Topic.Op.Enqueue(s.tasks[t].msg)); }
  }

  lemma KeptDequeue(s: State, l: Topic.Ledger, s': State, q: Queue)
    requires Kept(s, l, q) && Dequeue(s, q) == Some(s')
    ensures Kept(s', Entered(l, s, SDequeue(q), q), q)
  {
    Topic.FifoStep(l, Topic.Op.Dequeue);
  }

  lemma KeptExpire(s: State, l: Topic.Ledger, i: nat, cutoff: Instant, t: nat, s': State, q: Queue)
    requires Kept(s, l, q) && ExpirePending(s, q, i, cutoff, t) == Some(s')
    ensures Kept(s', Entered(l, s, SExpirePending(q, i, cutoff, t), q), q)
  {
    FifoDropped(l, i);
  }

  lemma KeptStep(s: State, l: Topic.Ledger, step: Step, s': State, q: Queue)
    requires Kept(s, l, q) && LazyQueues(s) && !step.SRestart? && Next(s, step) == Some(s')
    ensures Kept(s', Entered(l, s, step, q), q)
  {
    if step.SEnterTopic? {
      KeptEnter(s, l, step.t, s', q);
    } else if step.SDequeue? && step.q == q {
      KeptDequeue(s, l, s', q);
    } else if step.SExpirePending? && step.q == q {
      KeptExpire(s, l, step.i, step.cutoff, step.t, s', q);
    } else {
      SameTopic(s, step, s', q);
    }
  }

  lemma KeptFresh(s: State, q: Queue)
    requires s.topics == map p | p in s.logs :: Live(s.logs[p])
    ensures Kept(s, AtStart(s, q), q)
  {
    FifoFresh(s, q);
    assert Live([]) == [];
  }

  lemma AfterStart(s: State, step: Step, s': State, q: Queue)
    requires step.SRestart? && Next(s, step) == Some(s')
    ensures s'.topics == (map p | p in s'.logs :: Live(s'.logs[p])) && AtStart(s', q) == AtStart(s, q)
  {
  }

  /**
   In every run each topic holds what its ledger says: of the messages loaded or entered, those that were dequeued, those
   that wait and those that expired make up all, and dequeued followed by waiting ones are in the order of entry.
   */
  lemma {:induction false} FirstInFirstOut(start: State, steps: seq<Step>, s: State, q: Queue)
    requires Reachable(s, start, steps)
    ensures var l := LedgerOf(start, steps, q); l.contents == TopicOf(s, q) && Topic.Fifo(l)
  {
    if steps == [] {
      KeptFresh(s, q);
    } else {
      var init, last := steps[..|steps| - 1], steps[|steps| - 1];
      var before := Run(start, init).value;
      FirstInFirstOut(start, init, before, q);
      ReachableIsGood(start, init, before);
      if last.SRestart? {
        AfterStart(before, last, s, q);
        KeptFresh(s, q);
      } else {
        KeptStep(before, LedgerOf(start, init, q), last, s, q);
      }
    }
  }

  /** What the ledger counts as dequeued is what the dispatcher gets to hold. */
  lemma HandGetsFront(start: State, steps: seq<Step>, s: State, q: Queue, s': State)
    requires Reachable(s, start, steps) && Next(s, SDequeue(q)) == Some(s')
    ensures q in s'.hands && s'.hands[q].Holding?
    ensures LedgerOf(start, steps + [SDequeue(q)], q).dequeued == LedgerOf(start, steps, q).dequeued + [s'.hands[q].msg]
  {
    FirstInFirstOut(start, steps, s, q);
    assert (steps + [SDequeue(q)])[..|steps|] == steps;
  }
}
