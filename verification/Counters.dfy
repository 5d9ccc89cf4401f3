/** Consumer counters: exact when IDs are unique in memory, and within the prefetch limit always. */
module Counters {
  import opened Core
  import opened Broker
  import opened Ownership

  // ---------------------------------------------------------------------------
  // Counting the entries of a map
  // ---------------------------------------------------------------------------

  function KeysWhere<K, V>(m: map<K, V>, p: V -> bool): set<K> { set k | k in m && p(m[k]) }

  function CountWhere<K, V>(m: map<K, V>, p: V -> bool): nat { |KeysWhere(m, p)| }

  lemma CountUpdate<K, V>(m: map<K, V>, k: K, v: V, p: V -> bool)
    ensures CountWhere(m[k := v], p) == CountWhere(m, p) - One(k in m && p(m[k])) + One(p(v))
  {
    var rest := KeysWhere(m, p) - {k};
    assert KeysWhere(m[k := v], p) == if p(v) then rest + {k} else rest;
    assert KeysWhere(m, p) == if k in m && p(m[k]) then rest + {k} else rest;
  }

  lemma CountRemove<K, V>(m: map<K, V>, k: K, p: V -> bool)
    ensures CountWhere(m - {k}, p) == CountWhere(m, p) - One(k in m && p(m[k]))
  {
    var rest := KeysWhere(m, p) - {k};
    assert KeysWhere(m - {k}, p) == rest;
    assert KeysWhere(m, p) == if k in m && p(m[k]) then rest + {k} else rest;
  }

  lemma CountNone<K, V>(m: map<K, V>, p: V -> bool)
    requires forall k :: k in m ==> !p(m[k])
    ensures CountWhere(m, p) == 0
  {
    assert KeysWhere(m, p) == {};
  }

  // ---------------------------------------------------------------------------
  // The invariant
  // ---------------------------------------------------------------------------

  function HandOf(c: ConsumerID): Pc -> bool { (pc: Pc) => pc.Charged? && pc.consumer == c }

  function EntryOf(c: ConsumerID): Entry -> bool { (e: Entry) => e.consumer == c }

  function RemovalOf(c: ConsumerID): Removal -> bool { (r: Removal) => r.entry.consumer == c }

  /** In-flight entries of the consumer, plus dispatchers that charged it and have not registered the message yet,
      plus removals that have not decremented it yet. */
  function Owed(s: State, c: ConsumerID): nat {
    CountWhere(s.inFlight, EntryOf(c)) + CountWhere(s.hands, HandOf(c)) + CountWhere(s.removals, RemovalOf(c))
  }

  ghost predicate Balanced(s: State, c: ConsumerID)
    requires c in s.consumers
  {
    && Owed(s, c) <= s.consumers[c].count <= s.consumers[c].prefetch
    && (s.dups == {} ==> s.consumers[c].count == Owed(s, c))
  }

  /** Between the eligibility check and the increment nobody else increments: the chosen consumers keep their room. */
  ghost predicate RoomKept(s: State) {
    forall q, c :: q in s.hands && s.hands[q].Choosing? && c in s.hands[q].eligible ==>
      c in s.known && (c in s.consumers ==> IsEligible(s.consumers, c, q))
  }

  ghost predicate ChargesKnown(s: State) {
    && s.consumers.Keys <= s.known
    && (forall q :: q in s.hands && s.hands[q].Charged? ==> s.hands[q].consumer in s.known)
    && (forall q :: q in s.hands && s.hands[q].Charged? && s.hands[q].consumer in s.consumers ==>
          s.consumers[s.hands[q].consumer].queue == q)
    && (forall id :: id in s.inFlight ==> s.inFlight[id].consumer in s.known)
    && (forall r :: r in s.removals ==> s.removals[r].entry.consumer in s.known)
  }

  ghost predicate AllBalanced(s: State) { forall c :: c in s.consumers ==> Balanced(s, c) }

  ghost predicate Counted(s: State) { AllBalanced(s) && RoomKept(s) && ChargesKnown(s) }

  // ---------------------------------------------------------------------------
  // Steps
  // ---------------------------------------------------------------------------

  lemma CountedFrame(s: State, s': State)
    requires Counted(s)
    requires s'.hands == s.hands && s'.inFlight == s.inFlight && s'.removals == s.removals
    requires s'.consumers == s.consumers && s'.known == s.known && s'.dups == s.dups
    ensures Counted(s')
  {
    forall c | c in s'.consumers ensures Balanced(s', c) { assert Balanced(s, c); }
  }

  /** A dispatcher moves without charging anyone. */
  lemma CountedHand(s: State, s': State, q: Queue, pc: Pc)
    requires Counted(s) && s'.hands == s.hands[q := pc]
    requires !pc.Charged? && (q in s.hands ==> !s.hands[q].Charged?)
    requires pc.Choosing? ==> pc.eligible <= EligibleConsumers(s, q)
    requires s'.inFlight == s.inFlight && s'.removals == s.removals
    requires s'.consumers == s.consumers && s'.known == s.known && s'.dups == s.dups
    ensures Counted(s')
  {
    forall c | c in s'.consumers ensures Balanced(s', c) {
      assert Balanced(s, c);
      CountUpdate(s.hands, q, pc, HandOf(c));
    }
  }

  lemma BalancedCharge(s: State, q: Queue, x: ConsumerID, s': State)
    requires Counted(s) && Charge(s, q, x) == Some(s')
    ensures AllBalanced(s')
  {
    forall c | c in s'.consumers ensures Balanced(s', c) {
      assert Balanced(s, c);
      CountUpdate(s.hands, q, Pc.Charged(s.hands[q].msg, x), HandOf(c));
      assert c == x ==> IsEligible(s.consumers, c, q);
    }
  }

  lemma RoomCharge(s: State, q: Queue, x: ConsumerID, s': State)
    requires Counted(s) && Charge(s, q, x) == Some(s')
    ensures RoomKept(s')
  {
    forall p, c | p in s'.hands && s'.hands[p].Choosing? && c in s'.hands[p].eligible
      ensures c in s'.known && (c in s'.consumers ==> IsEligible(s'.consumers, c, p))
    {
      assert c in s.consumers ==> IsEligible(s.consumers, c, p);
      assert x in s.consumers ==> IsEligible(s.consumers, x, q);
    }
  }

  lemma CountedCharge(s: State, q: Queue, x: ConsumerID, s': State)
    requires Counted(s) && Charge(s, q, x) == Some(s')
    ensures Counted(s')
  {
    BalancedCharge(s, q, x, s');
    RoomCharge(s, q, x, s');
    assert x in s.known && (x in s.consumers ==> IsEligible(s.consumers, x, q));
  }

  lemma HandIsNotInFlight(s: State, q: Queue)
    requires Owned(s) && q in s.hands && InHand(s.hands[q])
    ensures s.hands[q].msg.id in s.inFlight ==> s.hands[q].msg.id in s.dups
  {
    var id := s.hands[q].msg.id;
    assert Holds(s, AtHand(q), id);
    assert id in s.inFlight ==> Holds(s, AtFlight, id);
  }

  /** The charge moves from the dispatcher's hand to the new entry; only a duplicate ID can overwrite an old entry. */
  lemma CountedRegister(s: State, q: Queue, now: Instant, s': State)
    requires Counted(s) && Register(s, q, now) == Some(s')
    requires s.dups == {} ==> s.hands[q].msg.id !in s.inFlight
    ensures Counted(s')
  {
    var id := s.hands[q].msg.id;
    forall c | c in s'.consumers ensures Balanced(s', c) {
      assert Balanced(s, c);
      CountUpdate(s.hands, q, s'.hands[q], HandOf(c));
      CountUpdate(s.inFlight, id, s'.inFlight[id], EntryOf(c));
    }
  }

  lemma CountedTaken(s: State, id: MessageID, r: nat, after: After)
    requires Counted(s) && r !in s.removals
    ensures Counted(Taken(s, id, r, after))
  {
    var s' := Taken(s, id, r, after);
    if id in s.inFlight {
      forall c | c in s'.consumers ensures Balanced(s', c) {
        assert Balanced(s, c);
        CountRemove(s.inFlight, id, EntryOf(c));
        CountUpdate(s.removals, r, Removal(s.inFlight[id], after), RemovalOf(c));
      }
    }
  }

  /** Consumers leave or get more room. */
  ghost predicate Eased(cs: map<ConsumerID, Consumer>, cs': map<ConsumerID, Consumer>) {
    forall c :: c in cs' ==>
      c in cs && cs'[c].queue == cs[c].queue && cs'[c].prefetch == cs[c].prefetch && cs'[c].count <= cs[c].count
  }

  lemma RoomEased(s: State, s': State)
    requires RoomKept(s) && s'.hands == s.hands && s'.known == s.known && Eased(s.consumers, s'.consumers)
    ensures RoomKept(s')
  {
    forall q, c | q in s'.hands && s'.hands[q].Choosing? && c in s'.hands[q].eligible && c in s'.consumers
      ensures IsEligible(s'.consumers, c, q)
    {
      assert IsEligible(s.consumers, c, q);
    }
  }

  lemma KnownEased(s: State, s': State)
    requires ChargesKnown(s) && s'.hands == s.hands && s'.inFlight == s.inFlight && s'.known == s.known
    requires Eased(s.consumers, s'.consumers)
    requires forall r :: r in s'.removals ==> r in s.removals && s'.removals[r] == s.removals[r]
    ensures ChargesKnown(s')
  {
  }

  lemma EasedByDecrement(cs: map<ConsumerID, Consumer>, c: ConsumerID)
    ensures Eased(cs, AddToCount(cs, c, -1))
  {
  }

  lemma BalancedUncharged(s: State, s': State, r: nat)
    requires AllBalanced(s) && r in s.removals
    requires s'.removals == s.removals - {r} && s'.consumers == AddToCount(s.consumers, s.removals[r].entry.consumer, -1)
    requires s'.hands == s.hands && s'.inFlight == s.inFlight && s'.dups == s.dups
    ensures AllBalanced(s')
  {
    forall c | c in s'.consumers ensures Balanced(s', c) {
      assert Balanced(s, c);
      CountRemove(s.removals, r, RemovalOf(c));
    }
  }

  /** The decrement hits the consumer recorded in the removed entry. */
  lemma CountedUncharged(s: State, s': State, r: nat)
    requires Counted(s) && r in s.removals
    requires s'.removals == s.removals - {r} && s'.consumers == AddToCount(s.consumers, s.removals[r].entry.consumer, -1)
    requires s'.hands == s.hands && s'.inFlight == s.inFlight && s'.known == s.known && s'.dups == s.dups
    ensures Counted(s')
  {
    BalancedUncharged(s, s', r);
    EasedByDecrement(s.consumers, s.removals[r].entry.consumer);
    RoomEased(s, s');
    KnownEased(s, s');
  }

  lemma BalancedConnect(s: State, x: ConsumerID, q: Queue, requested: int32, s': State)
    requires Counted(s) && Connect(s, x, q, requested) == Some(s')
    ensures AllBalanced(s')
  {
    forall c | c in s'.consumers ensures Balanced(s', c) {
      if c == x {
        CountNone(s.inFlight, EntryOf(x));
        CountNone(s.hands, HandOf(x));
        CountNone(s.removals, RemovalOf(x));
      } else {
        assert Balanced(s, c);
      }
    }
  }

  lemma CountedConnect(s: State, x: ConsumerID, q: Queue, requested: int32, s': State)
    requires Counted(s) && Connect(s, x, q, requested) == Some(s')
    ensures Counted(s')
  {
    BalancedConnect(s, x, q, requested, s');
    forall p, c | p in s'.hands && s'.hands[p].Choosing? && c in s'.hands[p].eligible
      ensures c in s'.known && (c in s'.consumers ==> IsEligible(s'.consumers, c, p))
    {
      assert c in s.known && (c in s.consumers ==> IsEligible(s.consumers, c, p));
    }
  }

  lemma CountedDisconnect(s: State, x: ConsumerID, s': State)
    requires Counted(s) && Disconnect(s, x) == Some(s')
    ensures Counted(s')
  {
    RoomEased(s, s');
    forall c | c in s'.consumers ensures Balanced(s', c) { assert Balanced(s, c); }
  }
}
