/** No message changes on its way: payload and headers are those it was published with, in memory and in every log. */
module Contents {
  import opened Core
  import opened Log
  import opened Broker
  import opened Ownership
  import opened Durability
  import opened History
  import opened Safety
  import opened Theorems
  import opened Descent

  /** The message has the content its ID was published with. */
  ghost predicate Unaltered(s: State, m: Message) { m.id in s.content && s.content[m.id] == ContentOf(m) }

  ghost predicate HeldUnaltered(s: State) {
    forall o :: At(s, o).Some? && At(s, o).value.id in s.home ==> Unaltered(s, At(s, o).value)
  }

  ghost predicate LoggedUnaltered(s: State) {
    forall q, m :: m in Messages(LogOf(s, q)) && m.id in s.home ==> Unaltered(s, m)
  }

  ghost predicate AllUnaltered(s: State) { HeldUnaltered(s) && LoggedUnaltered(s) }

  lemma NothingPublished(s: State)
    requires s.home == map[]
    ensures AllUnaltered(s)
  {
  }

  lemma SpotIsIssued(s: State, o: Spot)
    requires Owned(s) && At(s, o).Some?
    ensures At(s, o).value.id in s.issued
  {
    var p := PlaceOf(s, o);
    HoldsMsgHolds(s, p, At(s, o).value);
  }

  /** The content of every ID issued before is recorded as before. */
  ghost predicate SameContents(s: State, s': State) {
    forall id :: id in s'.home && id in s.issued ==>
      id in s.home && (id in s.content ==> id in s'.content && s'.content[id] == s.content[id])
  }

  lemma StepSameContents(s: State, step: Step, s': State)
    requires !step.SRestart? && Next(s, step) == Some(s')
    ensures SameContents(s, s')
  {
    if IsLogStep(step) {
      LogStepFrame(s, step, s');
    } else {
      StepFrame(s, step, s');
      assert forall id :: id in s'.home ==> id !in s.issued || SameStory(s, s', id);
    }
  }

  lemma HeldUnalteredStep(s: State, mv: Move, s': State)
    requires Owned(s) && HeldUnaltered(s) && SameContents(s, s') && Traces(s, mv, s')
    ensures HeldUnaltered(s')
  {
    forall o | At(s', o).Some? && At(s', o).value.id in s'.home ensures Unaltered(s', At(s', o).value) {
      assert Traced(s, mv, s', o);
      if mv != Fresh(o) {
        TracedFrom(s, mv, s', o);
        SpotIsIssued(s, Back(mv, o));
        assert Unaltered(s, At(s, Back(mv, o)).value);
      }
    }
  }

  lemma MessageIsIssued(s: State, q: Queue, m: Message)
    requires IdsIssued(s) && m in Messages(LogOf(s, q))
    ensures m.id in s.issued
  {
    MessageIdsAreLogged(LogOf(s, q), m);
    var i :| 0 <= i < |LogOf(s, q)| && LogOf(s, q)[i].id == m.id;
    assert q in s.logs && s.logs[q][i].id == m.id;
    assert m.id in LoggedIds(s.logs);
  }

  /** Each log's messages were there before, or are the stored form of the message at `o`. */
  lemma LoggedUnalteredStep(s: State, s': State, o: Spot)
    requires Owned(s) && IdsIssued(s) && HeldUnaltered(s) && LoggedUnaltered(s) && SameContents(s, s')
    requires forall q, m :: m in Messages(LogOf(s', q)) ==>
      m in Messages(LogOf(s, q)) || (At(s, o).Some? && m == Stored(At(s, o).value))
    ensures LoggedUnaltered(s')
  {
    forall q, m | m in Messages(LogOf(s', q)) && m.id in s'.home ensures Unaltered(s', m) {
      if m in Messages(LogOf(s, q)) {
        MessageIsIssued(s, q, m);
        assert Unaltered(s, m);
      } else {
        SpotIsIssued(s, o);
        assert Unaltered(s, At(s, o).value);
      }
    }
  }

  lemma LandMessages(s: State, t: nat, s': State, q: Queue, m: Message)
    requires t in s.tasks && s' == LandRecord(s, t) && m in Messages(LogOf(s', q))
    ensures m in Messages(LogOf(s, q)) || m == Stored(s.tasks[t].msg)
  {
    MessagesAppend(LogOf(s, s.tasks[t].msg.queue), Put(s.tasks[t].msg));
  }

  lemma LandTombstoneMessages(s: State, t: nat, s': State, q: Queue)
    requires t in s.tasks && s' == LandTombstone(s, t)
    ensures Messages(LogOf(s', q)) == Messages(LogOf(s, q))
  {
    var m := s.tasks[t].msg;
    if q == m.queue { TombstoneAddsNoMessage(LogOf(s, q), m.id); }
  }

  lemma CompactMessages(s: State, p: Queue, s': State, q: Queue, m: Message)
    requires CompactLog(s, p) == Some(s') && m in Messages(LogOf(s', q))
    ensures m in Messages(LogOf(s, q))
  {
    MessagesOfCompacted(LogOf(s, p));
    WithoutMembers(Messages(LogOf(s, p)), Tombstoned(LogOf(s, p)));
  }

  lemma LogStepMessages(s: State, step: Step, s': State, q: Queue, m: Message)
    requires IsLogStep(step) && !step.SRestart? && LogNext(s, step) == Some(s') && m in Messages(LogOf(s', q))
    ensures m in Messages(LogOf(s, q)) || (step.SWriteRecord? && At(s, OnTask(step.t)).Some? && m == Stored(s.tasks[step.t].msg))
  {
    if step.SWriteRecord? {
      if s.tasks[step.t].msg.queue !in s.torn { LandMessages(s, step.t, s', q, m); }
    } else if step.SWriteTombstone? {
      if s.tasks[step.t].msg.queue !in s.torn { LandTombstoneMessages(s, step.t, s', q); }
    } else {
      CompactMessages(s, step.q, s', q, m);
    }
  }

  lemma UnalteredStep(s: State, step: Step, s': State)
    requires Good(s) && AllUnaltered(s) && !step.SRestart? && Next(s, step) == Some(s')
    ensures AllUnaltered(s')
  {
    var mv := StepTraces(s, step, s');
    StepSameContents(s, step, s');
    HeldUnalteredStep(s, mv, s');
    if IsLogStep(step) {
      forall q, m | m in Messages(LogOf(s', q))
        ensures m in Messages(LogOf(s, q)) || (step.SWriteRecord? && At(s, OnTask(step.t)).Some? && m == Stored(s.tasks[step.t].msg))
      {
        LogStepMessages(s, step, s', q, m);
      }
      LoggedUnalteredStep(s, s', if step.SWriteRecord? then OnTask(step.t) else OnTask(0));
    } else {
      StepFrame(s, step, s');
      LoggedUnalteredStep(s, s', OnTask(0));
    }
  }

  lemma {:induction false} ReachableUnaltered(start: State, steps: seq<Step>, s: State)
    requires Reachable(s, start, steps)
    ensures AllUnaltered(s)
  {
    if steps == [] {
      NothingPublished(s);
    } else {
      var init, last := steps[..|steps| - 1], steps[|steps| - 1];
      var before := Run(start, init).value;
      ReachableUnaltered(start, init, before);
      ReachableIsGood(start, init, before);
      if last.SRestart? { NothingPublished(s); } else { UnalteredStep(before, last, s); }
    }
  }

  lemma HeldIsUnaltered(s: State, p: Place, m: Message)
    requires HeldUnaltered(s) && HoldsMsg(s, p, m) && m.id in s.home
    ensures Unaltered(s, m)
  {
    var o := SpotOf(s, p, m);
  }

  lemma LiveIsUnaltered(s: State, q: Queue, m: Message)
    requires LoggedUnaltered(s) && m in Live(LogOf(s, q)) && m.id in s.home
    ensures Unaltered(s, m)
  {
    WithoutMembers(Messages(LogOf(s, q)), Tombstoned(LogOf(s, q)));
  }

  /** A message published in this session is held, wherever it is, with its own payload and headers. */
  lemma HeldContentKept(start: State, steps: seq<Step>, s: State, p: Place, m: Message)
    requires Reachable(s, start, steps) && HoldsMsg(s, p, m) && m.id in s.home
    ensures m.id in s.content && ContentOf(m) == s.content[m.id]
  {
    ReachableUnaltered(start, steps, s);
    HeldIsUnaltered(s, p, m);
  }

  /** And so is every copy that a replay of any queue returns. */
  lemma ReplayedContentKept(start: State, steps: seq<Step>, s: State, q: Queue, m: Message)
    requires Reachable(s, start, steps) && m in Live(LogOf(s, q)) && m.id in s.home
    ensures m.id in s.content && ContentOf(m) == s.content[m.id]
  {
    ReachableUnaltered(start, steps, s);
    LiveIsUnaltered(s, q, m);
  }
}
