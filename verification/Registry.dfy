/** Connected consumers under two indexes, and the dispatcher's choice among them. */
module Registry {
  import opened Core

  class Consumer {
    const id: ConsumerID
    const queue: Queue
    const prefetch: int32
    const capacity: nat
    var inFlight: int

    /** The send buffer holds as many messages as the prefetch limit, but at least one. */
    constructor (id: ConsumerID, queue: Queue, prefetch: int32)
      ensures this.id == id && this.queue == queue && this.prefetch == prefetch && inFlight == 0
      ensures capacity >= 1 && capacity >= prefetch && (capacity == 1 || capacity == prefetch)
    {
      this.id, this.queue, this.prefetch := id, queue, prefetch;
      capacity := if prefetch < 1 then 1 else prefetch;
      inFlight := 0;
    }

    predicate IsEligible() reads this { inFlight < prefetch }
  }

  function AddTo(counts: map<ConsumerID, int>, id: ConsumerID, delta: int): map<ConsumerID, int> {
    if id in counts then counts[id := counts[id] + delta] else counts
  }

  type Members = map<ConsumerID, Consumer>

  /** The two indexes hold the same consumers, each under its own ID and queue. */
  ghost predicate Agree(byID: Members, byQueue: map<Queue, Members>) {
    && (forall id :: id in byID ==>
          byID[id].id == id && byID[id].queue in byQueue && id in byQueue[byID[id].queue])
    && (forall q, id :: q in byQueue && id in byQueue[q] ==> id in byID && byID[id] == byQueue[q][id] && byID[id].queue == q)
  }

  function Filed(byQueue: map<Queue, Members>, c: Consumer): map<Queue, Members> {
    var members: Members := if c.queue in byQueue then byQueue[c.queue] else map[];
    byQueue[c.queue := members[c.id := c]]
  }

  lemma AgreeWithNew(byID: Members, byQueue: map<Queue, Members>, c: Consumer)
    requires Agree(byID, byQueue) && (c.id !in byID || byID[c.id].queue == c.queue)
    ensures Agree(byID[c.id := c], Filed(byQueue, c))
  {
    var byID', byQueue' := byID[c.id := c], Filed(byQueue, c);
    forall q, id | q in byQueue' && id in byQueue'[q]
      ensures id in byID' && byID'[id] == byQueue'[q][id] && byID'[id].queue == q
    {
    }
  }

  /** Moving an ID to another queue leaves the old entry behind. */
  lemma DisagreeWithMoved(byID: Members, byQueue: map<Queue, Members>, c: Consumer)
    requires Agree(byID, byQueue) && c.id in byID && byID[c.id].queue != c.queue
    ensures !Agree(byID[c.id := c], Filed(byQueue, c))
  {
    var q, byID', byQueue' := byID[c.id].queue, byID[c.id := c], Filed(byQueue, c);
    assert byQueue'[q] == byQueue[q];
    assert q in byQueue' && c.id in byQueue'[q] && byID'[c.id].queue != q;
  }

  class Registry {
    var byQueue: map<Queue, map<ConsumerID, Consumer>>
    var byID: map<ConsumerID, Consumer>

    ghost predicate Valid() reads this { Agree(byID, byQueue) }

    /** The registered consumers of a queue with room, by scanning all of them. */
    ghost function Eligible(q: Queue): set<Consumer> reads this, byID.Values {
      set id | id in byID && byID[id].queue == q && byID[id].IsEligible() :: byID[id]
    }

    constructor ()
      ensures Valid() && byID == map[]
    {
      byQueue, byID := map[], map[];
    }

    /** The indexes agree afterwards exactly when the ID is new or registered on the same queue. */
    method Register(consumer: Consumer)
      requires Valid()
      modifies this
      ensures byID == old(byID)[consumer.id := consumer]
      ensures Valid() <==> consumer.id !in old(byID) || old(byID)[consumer.id].queue == consumer.queue
    {
      if consumer.queue !in byQueue {
        byQueue := byQueue[consumer.queue := map[]];
      }
      byQueue := byQueue[consumer.queue := byQueue[consumer.queue][consumer.id := consumer]];
      byID := byID[consumer.id := consumer];
      assert byQueue == Filed(old(byQueue), consumer);
      if consumer.id in old(byID) && old(byID)[consumer.id].queue != consumer.queue {
        DisagreeWithMoved(old(byID), old(byQueue), consumer);
      } else {
        AgreeWithNew(old(byID), old(byQueue), consumer);
      }
    }

    method Deregister(id: ConsumerID)
      requires Valid()
      modifies this
      ensures Valid() && byID == old(byID) - {id}
    {
      if id !in byID { return; }
      var q := byID[id].queue;
      byID := byID - {id};
      byQueue := byQueue[q := byQueue[q] - {id}];
    }

    /** Walks the consumers of one queue; the result is what a scan of all consumers would give. */
    method EligibleConsumers(q: Queue) returns (eligible: seq<Consumer>)
      requires Valid()
      ensures forall c :: c in eligible <==>
        c.id in byID && byID[c.id] == c && c.queue == q && c.inFlight < c.prefetch
      ensures forall c :: c in eligible <==> c in Eligible(q)
      ensures forall i, j :: 0 <= i < j < |eligible| ==> eligible[i] != eligible[j]
    {
      eligible := [];
      assert forall c :: c in Eligible(q) <==> c.id in byID && byID[c.id] == c && c.queue == q && c.IsEligible();
      if q !in byQueue { return; }
      assert forall id :: id in byQueue[q] <==> id in byID && byID[id].queue == q;
      var todo := byQueue[q].Keys;
      while todo != {}
        invariant todo <= byQueue[q].Keys
        invariant forall c :: c in eligible <==>
          c.id in byQueue[q] && c.id !in todo && byQueue[q][c.id] == c && c.IsEligible()
        invariant forall i, j :: 0 <= i < j < |eligible| ==> eligible[i] != eligible[j]
        decreases todo
      {
        var id :| id in todo;
        var c := byQueue[q][id];
        assert byID[id] == c && c.id == id;
        if c.IsEligible() { eligible := eligible + [c]; }
        todo := todo - {id};
      }
    }

    function Counts(): map<ConsumerID, int> reads this, byID.Values {
      map id | id in byID :: byID[id].inFlight
    }

    /** The counter found under the ID changes and no other; an unknown ID is ignored. */
    method AddInFlight(id: ConsumerID, delta: int)
      requires Valid()
      modifies byID.Values`inFlight
      ensures Counts() == AddTo(old(Counts()), id, delta)
      ensures forall x :: x in byID ==> byID[x].inFlight == old(byID[x].inFlight) + if x == id then delta else 0
    {
      if id in byID {
        var c := byID[id];
        assert c in byID.Values;
        assert forall x :: x in byID && byID[x] == c ==> x == id;
        c.inFlight := c.inFlight + delta;
      }
    }

    /** The dispatcher's pick: nobody eligible on the queue has fewer messages in flight. */
    method Pick(q: Queue) returns (pick: Option<Consumer>)
      requires Valid()
      ensures pick.None? <==> forall x :: x in byID && byID[x].queue == q ==> byID[x].inFlight >= byID[x].prefetch
      ensures pick.Some? ==> var c := pick.value;
        && c.id in byID && byID[c.id] == c && c.queue == q && c.inFlight < c.prefetch
        && forall d :: d in Eligible(q) ==> c.inFlight <= d.inFlight
      ensures pick.None? <==> Eligible(q) == {}
    {
      var eligible := EligibleConsumers(q);
      if |eligible| == 0 {
        assert Eligible(q) == {};
        forall x | x in byID && byID[x].queue == q ensures byID[x].inFlight >= byID[x].prefetch {
          assert byID[x] !in eligible;
        }
        return None;
      }
      var c := LeastInFlight(eligible);
      assert c in Eligible(q);
      pick := Some(c);
    }

    /** The dispatcher's pick is charged with one message more; no counter passes its limit by that. */
    method Charge(q: Queue) returns (pick: Option<Consumer>)
      requires Valid()
      modifies byID.Values`inFlight
      ensures pick.None? ==> Counts() == old(Counts())
      ensures pick.Some? ==> pick.value in old(Eligible(q)) && Counts() == AddTo(old(Counts()), pick.value.id, 1)
      ensures forall x :: x in byID && old(byID[x].inFlight) <= byID[x].prefetch ==> byID[x].inFlight <= byID[x].prefetch
    {
      pick := Pick(q);
      if pick.Some? { AddInFlight(pick.value.id, 1); }
    }
  }

  /** The first consumer after sorting by load. */
  method LeastInFlight(consumers: seq<Consumer>) returns (c: Consumer)
    requires consumers != []
    ensures c in consumers && forall d :: d in consumers ==> c.inFlight <= d.inFlight
  {
    c := consumers[0];
    for i := 1 to |consumers|
      invariant c in consumers
      invariant forall j :: 0 <= j < i ==> c.inFlight <= consumers[j].inFlight
    {
      if consumers[i].inFlight < c.inFlight { c := consumers[i]; }
    }
  }
}
