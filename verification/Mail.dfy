/** What is registered is sent, what is sent arrives in order, and nothing else does. */
module Mail {
  import opened Core
  import opened Broker
  import opened Ownership
  import opened Theorems
  import opened Safety
  import opened Notes

  /** Every channel holds what was sent to its consumer and not received yet, in order, and never more than fits. */
  ghost predicate Boxed(s: State, n: Notes) {
    && n.sent.Keys == s.mailboxes.Keys && n.received.Keys == s.mailboxes.Keys && s.mailboxes.Keys <= s.known
    && forall c :: c in s.mailboxes ==>
         n.sent[c] == n.received[c] + s.mailboxes[c].msgs && |s.mailboxes[c].msgs| <= s.mailboxes[c].capacity
  }

  ghost predicate Waits(s: State, q: Queue, m: Message, c: ConsumerID) { q in s.hands && s.hands[q] == Sending(m, c) }

  ghost predicate SentOrWaits(s: State, n: Notes, e: Entry) {
    e.msg in ListOf(n.sent, e.consumer) || exists q :: Waits(s, q, e.msg, e.consumer)
  }

  /** Every message in flight was sent to the consumer recorded with it, or its dispatcher is about to send it there. */
  ghost predicate Posted(s: State, n: Notes) { forall id :: id in s.inFlight ==> SentOrWaits(s, n, s.inFlight[id]) }

  ghost predicate HasChannel(s: State, pc: Pc) {
    && (pc.Choosing? ==> pc.eligible <= s.mailboxes.Keys)
    && (pc.Charged? || pc.Sending? ==> pc.consumer in s.mailboxes)
  }

  /** Whom a dispatcher may choose, or has chosen, has a channel; what it sends is of its own queue. */
  ghost predicate Connected(s: State) {
    && s.consumers.Keys <= s.mailboxes.Keys
    && forall q :: q in s.hands ==> HasChannel(s, s.hands[q]) && (s.hands[q].Sending? ==> s.hands[q].msg.queue == q)
  }

  /** Where in the lists a message of the queue and ID occurs. */
  ghost function Listing(lists: map<ConsumerID, seq<Message>>, q: Queue, id: MessageID): set<(ConsumerID, int)> {
    set c, i | c in lists && 0 <= i < |lists[c]| && lists[c][i].queue == q && lists[c][i].id == id :: (c, i)
  }

  ghost predicate AtSend(s: State, q: Queue, id: MessageID) { q in s.hands && s.hands[q].Sending? && s.hands[q].msg.id == id }

  /** Registrations are sends, done or about to be; only a cancelled dispatcher gives one up. */
  ghost predicate Paid(s: State, n: Notes) {
    forall q, id ::
      && |Listing(n.sent, q, id)| + One(AtSend(s, q, id)) <= s.delivered[(q, id)]
      && (!s.cancelled ==> |Listing(n.sent, q, id)| + One(AtSend(s, q, id)) == s.delivered[(q, id)])
  }

  ghost predicate Mailed(s: State, n: Notes) { Boxed(s, n) && Posted(s, n) && Connected(s) && Paid(s, n) }

  // ---------------------------------------------------------------------------
  // Lists that grow
  // ---------------------------------------------------------------------------

  lemma ListingAt(lists: map<ConsumerID, seq<Message>>, c: ConsumerID, m: Message, q: Queue, id: MessageID, x: ConsumerID, i: int)
    ensures (x, i) in Listing(Listed(lists, c, m), q, id)
       <==> (x, i) in Listing(lists, q, id) || (m.queue == q && m.id == id && x == c && i == |ListOf(lists, c)|)
  {
    if x == c { assert Listed(lists, c, m)[c] == ListOf(lists, c) + [m]; }
  }

  lemma ListingMore(lists: map<ConsumerID, seq<Message>>, c: ConsumerID, m: Message, q: Queue, id: MessageID)
    ensures |Listing(Listed(lists, c, m), q, id)| == |Listing(lists, q, id)| + One(m.queue == q && m.id == id)
  {
    var before, after := Listing(lists, q, id), Listing(Listed(lists, c, m), q, id);
    var more := if m.queue == q && m.id == id then {(c, |ListOf(lists, c)|)} else {};
    forall p ensures p in after <==> p in before + more {
      ListingAt(lists, c, m, q, id, p.0, p.1);
    }
    assert after == before + more && before !! more;
  }

  lemma ListingNew(lists: map<ConsumerID, seq<Message>>, c: ConsumerID, q: Queue, id: MessageID)
    requires c !in lists
    ensures Listing(lists[c := []], q, id) == Listing(lists, q, id)
  {
  }

  // ---------------------------------------------------------------------------
  // Steps
  // ---------------------------------------------------------------------------

  /** No dispatcher starts or ends sending; entries only leave; channels, lists and deliveries stay. */
  ghost predicate MailStays(s: State, s': State) {
    && s'.mailboxes == s.mailboxes && s.known <= s'.known && s'.delivered == s.delivered
    && (s.cancelled ==> s'.cancelled) && FlightShrinks(s, s')
    && s'.consumers.Keys <= s'.mailboxes.Keys
    && (forall q :: q in s'.hands ==> HasChannel(s', s'.hands[q]))
    && (forall q :: q in s'.hands && s'.hands[q].Sending? ==> q in s.hands && s.hands[q] == s'.hands[q])
    && (forall q :: q in s.hands && s.hands[q].Sending? ==> q in s'.hands && s.hands[q] == s'.hands[q])
  }

  lemma MailedStays(s: State, n: Notes, s': State, n': Notes)
    requires Mailed(s, n) && MailStays(s, s') && n'.sent == n.sent && n'.received == n.received
    ensures Mailed(s', n')
  {
    forall id | id in s'.inFlight ensures SentOrWaits(s', n', s'.inFlight[id]) {
      var e := s.inFlight[id];
      assert SentOrWaits(s, n, e);
      if e.msg !in ListOf(n.sent, e.consumer) {
        var q :| Waits(s, q, e.msg, e.consumer);
        assert Waits(s', q, e.msg, e.consumer);
      }
    }
    forall q, id
      ensures |Listing(n'.sent, q, id)| + One(AtSend(s', q, id)) <= s'.delivered[(q, id)]
      ensures !s'.cancelled ==> |Listing(n'.sent, q, id)| + One(AtSend(s', q, id)) == s'.delivered[(q, id)]
    {
      assert AtSend(s', q, id) <==> AtSend(s, q, id);
      assert |Listing(n.sent, q, id)| + One(AtSend(s, q, id)) <= s.delivered[(q, id)];
    }
  }

  /** Dispatchers and channels are not touched. */
  lemma StaysPut(s: State, s': State)
    requires Connected(s) && FlightShrinks(s, s') && s'.consumers.Keys == s.consumers.Keys
    requires s'.mailboxes == s.mailboxes && s'.hands == s.hands && s'.known == s.known
    requires s'.delivered == s.delivered && s'.cancelled == s.cancelled
    ensures MailStays(s, s')
  {
  }

  lemma StaysLog(s: State, step: Step, s': State)
    requires Connected(s) && IsLogStep(step) && !step.SRestart? && LogNext(s, step) == Some(s')
    ensures MailStays(s, s')
  {
    LogStepFrame(s, step, s');
    StaysPut(s, s');
  }

  lemma StaysManager(s: State, step: Step, s': State)
    requires Connected(s) && IsManagerStep(step) && ManagerNext(s, step) == Some(s')
    ensures MailStays(s, s')
  {
    StaysPut(s, s');
  }

  lemma StaysOutcome(s: State, step: Step, s': State)
    requires Connected(s) && IsOutcomeStep(step) && OutcomeNext(s, step) == Some(s')
    ensures MailStays(s, s')
  {
    ShrinksOutcome(s, step, s');
    StaysPut(s, s');
  }

  /** A dispatcher that is not sending, before or after. */
  lemma StaysAtHand(s: State, s': State, q: Queue)
    requires Connected(s) && q in s'.hands && s'.hands == s.hands[q := s'.hands[q]]
    requires (q in s.hands ==> !s.hands[q].Sending?) && !s'.hands[q].Sending? && HasChannel(s, s'.hands[q])
    requires s'.mailboxes == s.mailboxes && s'.consumers.Keys == s.consumers.Keys && s'.known == s.known
    requires s'.inFlight == s.inFlight && s'.delivered == s.delivered && s'.cancelled == s.cancelled
    ensures MailStays(s, s')
  {
    forall p | p in s'.hands ensures HasChannel(s', s'.hands[p]) {
      if p != q { assert HasChannel(s, s.hands[p]); }
    }
  }

  lemma StaysQuiet(s: State, step: Step, s': State)
    requires Connected(s) && IsQuietStep(step) && !step.SSend? && QuietNext(s, step) == Some(s')
    ensures MailStays(s, s')
  {
    StaysAtHand(s, s', step.q);
  }

  lemma StaysInit(s: State, q: Queue, s': State)
    requires Connected(s) && InitForDequeue(s, q) == Some(s')
    ensures MailStays(s, s')
  {
  }

  lemma StaysHand(s: State, step: Step, s': State)
    requires Connected(s) && (step.SDequeue? || step.SCharge? || step.SAbandon?) && HandNext(s, step) == Some(s')
    ensures MailStays(s, s')
  {
    if step.SCharge? { assert HasChannel(s, s.hands[step.q]); }
    StaysAtHand(s, s', step.q);
  }

  lemma StaysOutside(s: State, step: Step, s': State)
    requires Connected(s) && !step.SConnect? && !step.SReceive? && OutsideNext(s, step) == Some(s')
    ensures MailStays(s, s')
  {
  }

  /** Nothing is sent, and nobody starts or ends sending. */
  lemma PaidStays(s: State, n: Notes, s': State, n': Notes)
    requires Paid(s, n) && s'.hands == s.hands && s'.delivered == s.delivered && s'.cancelled == s.cancelled
    requires forall q, id :: Listing(n'.sent, q, id) == Listing(n.sent, q, id)
    ensures Paid(s', n')
  {
    forall p, id
      ensures |Listing(n'.sent, p, id)| + One(AtSend(s', p, id)) <= s'.delivered[(p, id)]
      ensures !s'.cancelled ==> |Listing(n'.sent, p, id)| + One(AtSend(s', p, id)) == s'.delivered[(p, id)]
    {
      assert AtSend(s', p, id) <==> AtSend(s, p, id);
      assert |Listing(n.sent, p, id)| + One(AtSend(s, p, id)) <= s.delivered[(p, id)];
    }
  }

  lemma PostedStays(s: State, n: Notes, s': State, n': Notes)
    requires Posted(s, n) && s'.inFlight == s.inFlight && s'.hands == s.hands
    requires forall id :: id in s.inFlight ==>
      ListOf(n'.sent, s.inFlight[id].consumer) == ListOf(n.sent, s.inFlight[id].consumer)
    ensures Posted(s', n')
  {
    forall id | id in s'.inFlight ensures SentOrWaits(s', n', s'.inFlight[id]) {
      var e := s.inFlight[id];
      assert SentOrWaits(s, n, e);
      if e.msg !in ListOf(n.sent, e.consumer) {
        var q :| Waits(s, q, e.msg, e.consumer);
        assert Waits(s', q, e.msg, e.consumer);
      }
    }
  }

  lemma ConnectedConnect(s: State, c: ConsumerID, q: Queue, requested: int32, s': State)
    requires Connected(s) && Connect(s, c, q, requested) == Some(s')
    ensures Connected(s')
  {
    forall p | p in s'.hands ensures HasChannel(s', s'.hands[p]) {
      assert HasChannel(s, s.hands[p]);
    }
  }

  lemma BoxedConnect(s: State, n: Notes, c: ConsumerID, capacity: nat, s': State, n': Notes)
    requires Boxed(s, n) && c !in s.known && s.known <= s'.known && c in s'.known
    requires s'.mailboxes == s.mailboxes[c := Mailbox(capacity, [])]
    requires n'.sent == n.sent[c := []] && n'.received == n.received[c := []]
    ensures Boxed(s', n')
  {
  }

  /** What the step changes, as far as channels are concerned. */
  lemma ConnectFrame(s: State, n: Notes, c: ConsumerID, q: Queue, requested: int32, s': State)
    requires Boxed(s, n) && Connect(s, c, q, requested) == Some(s')
    ensures c !in s.known && c !in n.sent && s'.known == s.known + {c}
    ensures c in s'.mailboxes && s'.mailboxes == s.mailboxes[c := Mailbox(s'.mailboxes[c].capacity, [])]
    ensures s'.hands == s.hands && s'.inFlight == s.inFlight && s'.delivered == s.delivered && s'.cancelled == s.cancelled
    ensures Noted(n, s, SConnect(c, q, requested)).sent == n.sent[c := []]
    ensures Noted(n, s, SConnect(c, q, requested)).received == n.received[c := []]
  {
  }

  lemma PostedConnect(s: State, n: Notes, c: ConsumerID, s': State, n': Notes)
    requires Posted(s, n) && s'.hands == s.hands && s'.inFlight == s.inFlight && c !in n.sent && n'.sent == n.sent[c := []]
    ensures Posted(s', n')
  {
    PostedStays(s, n, s', n');
  }

  /** A connecting consumer gets an empty channel. */
  lemma MailedConnect(s: State, n: Notes, c: ConsumerID, q: Queue, requested: int32, s': State)
    requires Mailed(s, n) && Connect(s, c, q, requested) == Some(s')
    ensures Mailed(s', Noted(n, s, SConnect(c, q, requested)))
  {
    var n' := Noted(n, s, SConnect(c, q, requested));
    ConnectFrame(s, n, c, q, requested, s');
    BoxedConnect(s, n, c, s'.mailboxes[c].capacity, s', n');
    ConnectedConnect(s, c, q, requested, s');
    PostedConnect(s, n, c, s', n');
    PaidConnect(s, n, c, s', n');
  }

  lemma PaidConnect(s: State, n: Notes, c: ConsumerID, s': State, n': Notes)
    requires Paid(s, n) && s'.hands == s.hands && s'.delivered == s.delivered && s'.cancelled == s.cancelled
    requires c !in n.sent && n'.sent == n.sent[c := []]
    ensures Paid(s', n')
  {
    forall p, id ensures Listing(n'.sent, p, id) == Listing(n.sent, p, id) {
      ListingNew(n.sent, c, p, id);
    }
    PaidStays(s, n, s', n');
  }

  lemma BoxedReceive(s: State, n: Notes, c: ConsumerID, s': State)
    requires Boxed(s, n) && Receive(s, c) == Some(s')
    ensures Boxed(s', Noted(n, s, SReceive(c)))
  {
    var box := s.mailboxes[c].msgs;
    assert box == [box[0]] + box[1..];
    assert n.received[c] + box == n.received[c] + [box[0]] + box[1..];
  }

  lemma ConnectedReceive(s: State, c: ConsumerID, s': State)
    requires Connected(s) && Receive(s, c) == Some(s')
    ensures Connected(s')
  {
    forall p | p in s'.hands ensures HasChannel(s', s'.hands[p]) {
      assert HasChannel(s, s.hands[p]);
    }
  }

  lemma ReceiveFrame(s: State, n: Notes, c: ConsumerID, s': State)
    requires Receive(s, c) == Some(s')
    ensures s'.hands == s.hands && s'.inFlight == s.inFlight && s'.delivered == s.delivered && s'.cancelled == s.cancelled
    ensures Noted(n, s, SReceive(c)).sent == n.sent
  {
  }

  /** The consumer takes the front of its channel. */
  lemma MailedReceive(s: State, n: Notes, c: ConsumerID, s': State)
    requires Mailed(s, n) && Receive(s, c) == Some(s')
    ensures Mailed(s', Noted(n, s, SReceive(c)))
  {
    var n' := Noted(n, s, SReceive(c));
    ReceiveFrame(s, n, c, s');
    BoxedReceive(s, n, c, s');
    ConnectedReceive(s, c, s');
    PostedStays(s, n, s', n');
    PaidStays(s, n, s', n');
  }

  lemma PostedSend(s: State, n: Notes, q: Queue, s': State)
    requires Posted(s, n) && Send(s, q) == Some(s')
    ensures Posted(s', Noted(n, s, SSend(q)))
  {
    var n' := Noted(n, s, SSend(q));
    forall id | id in s'.inFlight ensures SentOrWaits(s', n', s'.inFlight[id]) {
      var e := s.inFlight[id];
      assert SentOrWaits(s, n, e);
      if e.msg !in ListOf(n'.sent, e.consumer) {
        var p :| Waits(s, p, e.msg, e.consumer);
        assert Waits(s', p, e.msg, e.consumer);
      }
    }
  }

  lemma PaidSend(s: State, n: Notes, q: Queue, s': State)
    requires Paid(s, n) && Connected(s) && Send(s, q) == Some(s')
    ensures Paid(s', Noted(n, s, SSend(q)))
  {
    var n' := Noted(n, s, SSend(q));
    var c, m := s.hands[q].consumer, s.hands[q].msg;
    forall p, id
      ensures |Listing(n'.sent, p, id)| + One(AtSend(s', p, id)) <= s'.delivered[(p, id)]
      ensures !s'.cancelled ==> |Listing(n'.sent, p, id)| + One(AtSend(s', p, id)) == s'.delivered[(p, id)]
    {
      ListingMore(n.sent, c, m, p, id);
      assert |Listing(n.sent, p, id)| + One(AtSend(s, p, id)) <= s.delivered[(p, id)];
    }
  }

  /** The message goes to the back of the channel of the consumer it was registered with. */
  lemma MailedSend(s: State, n: Notes, q: Queue, s': State)
    requires Mailed(s, n) && Send(s, q) == Some(s')
    ensures Mailed(s', Noted(n, s, SSend(q)))
  {
    PostedSend(s, n, q, s');
    PaidSend(s, n, q, s');
    var c := s.hands[q].consumer;
    assert n.sent[c] + [s.hands[q].msg] == n.received[c] + (s.mailboxes[c].msgs + [s.hands[q].msg]);
  }

  lemma PostedRegister(s: State, n: Notes, q: Queue, now: Instant, s': State, n': Notes)
    requires Posted(s, n) && Register(s, q, now) == Some(s') && n'.sent == n.sent
    ensures Posted(s', n')
  {
    var x := s.hands[q].msg.id;
    forall id | id in s'.inFlight ensures SentOrWaits(s', n', s'.inFlight[id]) {
      var e := s'.inFlight[id];
      if id == x {
        assert Waits(s', q, e.msg, e.consumer);
      } else {
        assert SentOrWaits(s, n, e);
        if e.msg !in ListOf(n.sent, e.consumer) {
          var p :| Waits(s, p, e.msg, e.consumer);
          assert Waits(s', p, e.msg, e.consumer);
        }
      }
    }
  }

  lemma PaidRegister(s: State, n: Notes, q: Queue, now: Instant, s': State, n': Notes)
    requires Paid(s, n) && HandsRouted(s.hands) && Register(s, q, now) == Some(s') && n'.sent == n.sent
    ensures Paid(s', n')
  {
    forall p, id
      ensures |Listing(n'.sent, p, id)| + One(AtSend(s', p, id)) <= s'.delivered[(p, id)]
      ensures !s'.cancelled ==> |Listing(n'.sent, p, id)| + One(AtSend(s', p, id)) == s'.delivered[(p, id)]
    {
      assert |Listing(n.sent, p, id)| + One(AtSend(s, p, id)) <= s.delivered[(p, id)];
    }
  }

  lemma ConnectedRegister(s: State, q: Queue, now: Instant, s': State)
    requires Connected(s) && HandsRouted(s.hands) && Register(s, q, now) == Some(s')
    ensures Connected(s')
  {
    assert HasChannel(s, s.hands[q]);
  }

  lemma MailedRegister(s: State, n: Notes, q: Queue, now: Instant, s': State)
    requires Mailed(s, n) && HandsRouted(s.hands) && Register(s, q, now) == Some(s')
    ensures Mailed(s', Noted(n, s, SRegister(q, now)))
  {
    var n' := Noted(n, s, SRegister(q, now));
    PostedRegister(s, n, q, now, s', n');
    PaidRegister(s, n, q, now, s', n');
    ConnectedRegister(s, q, now, s');
  }

  lemma PostedCancel(s: State, n: Notes, q: Queue, r: nat, s': State)
    requires Posted(s, n) && FlightKeyed(s) && CancelSend(s, q, r) == Some(s')
    ensures Posted(s', n)
  {
    forall id | id in s'.inFlight ensures SentOrWaits(s', n, s'.inFlight[id]) {
      var e := s.inFlight[id];
      assert SentOrWaits(s, n, e) && e.msg.id == id;
      if e.msg !in ListOf(n.sent, e.consumer) {
        var p :| Waits(s, p, e.msg, e.consumer);
        assert Waits(s', p, e.msg, e.consumer);
      }
    }
  }

  lemma PaidCancel(s: State, n: Notes, q: Queue, r: nat, s': State)
    requires Paid(s, n) && CancelSend(s, q, r) == Some(s')
    ensures Paid(s', n)
  {
    forall p, id ensures |Listing(n.sent, p, id)| + One(AtSend(s', p, id)) <= s'.delivered[(p, id)] {
      assert |Listing(n.sent, p, id)| + One(AtSend(s, p, id)) <= s.delivered[(p, id)];
    }
  }

  lemma ConnectedCancel(s: State, q: Queue, r: nat, s': State)
    requires Connected(s) && CancelSend(s, q, r) == Some(s')
    ensures Connected(s')
  {
    forall p | p in s'.hands ensures HasChannel(s', s'.hands[p]) {
      if p != q { assert HasChannel(s, s.hands[p]); }
    }
  }

  /** Cancelled while sending: the entry leaves the in-flight map with it. */
  lemma MailedCancel(s: State, n: Notes, q: Queue, r: nat, s': State)
    requires Mailed(s, n) && FlightKeyed(s) && CancelSend(s, q, r) == Some(s')
    ensures Mailed(s', n)
  {
    PostedCancel(s, n, q, r, s');
    PaidCancel(s, n, q, r, s');
    ConnectedCancel(s, q, r, s');
  }

  lemma MailedQuiet(s: State, n: Notes, step: Step, s': State)
    requires Mailed(s, n) && IsQuietStep(step) && QuietNext(s, step) == Some(s')
    ensures Mailed(s', Noted(n, s, step))
  {
    if step.SSend? {
      MailedSend(s, n, step.q, s');
    } else {
      StaysQuiet(s, step, s');
      NotedOnly(n, s, step);
      MailedStays(s, n, s', Noted(n, s, step));
    }
  }

  lemma MailedHand(s: State, n: Notes, step: Step, s': State)
    requires Mailed(s, n) && Good(s) && IsHandStep(step) && HandNext(s, step) == Some(s')
    ensures Mailed(s', Noted(n, s, step))
  {
    NotedOnly(n, s, step);
    if step.SRegister? {
      MailedRegister(s, n, step.q, step.now, s');
    } else if step.SCancelSend? {
      MailedCancel(s, n, step.q, step.r, s');
    } else {
      if step.SInitForDequeue? { StaysInit(s, step.q, s'); } else { StaysHand(s, step, s'); }
      MailedStays(s, n, s', Noted(n, s, step));
    }
  }

  lemma MailedOutside(s: State, n: Notes, step: Step, s': State)
    requires Mailed(s, n) && OutsideNext(s, step) == Some(s')
    ensures Mailed(s', Noted(n, s, step))
  {
    if step.SConnect? {
      MailedConnect(s, n, step.c, step.q, step.requested, s');
    } else if step.SReceive? {
      MailedReceive(s, n, step.c, s');
    } else {
      StaysOutside(s, step, s');
      NotedOnly(n, s, step);
      MailedStays(s, n, s', Noted(n, s, step));
    }
  }

  lemma MailedLog(s: State, n: Notes, step: Step, s': State)
    requires Mailed(s, n) && IsLogStep(step) && !step.SRestart? && LogNext(s, step) == Some(s')
    ensures Mailed(s', Noted(n, s, step))
  {
    StaysLog(s, step, s');
    NotedOnly(n, s, step);
    MailedStays(s, n, s', Noted(n, s, step));
  }

  lemma MailedManager(s: State, n: Notes, step: Step, s': State)
    requires Mailed(s, n) && IsManagerStep(step) && ManagerNext(s, step) == Some(s')
    ensures Mailed(s', Noted(n, s, step))
  {
    StaysManager(s, step, s');
    NotedOnly(n, s, step);
    MailedStays(s, n, s', Noted(n, s, step));
  }

  lemma MailedOutcome(s: State, n: Notes, step: Step, s': State)
    requires Mailed(s, n) && IsOutcomeStep(step) && OutcomeNext(s, step) == Some(s')
    ensures Mailed(s', Noted(n, s, step))
  {
    StaysOutcome(s, step, s');
    NotedOnly(n, s, step);
    MailedStays(s, n, s', Noted(n, s, step));
  }

  lemma MailedStep(s: State, n: Notes, step: Step, s': State)
    requires Mailed(s, n) && Good(s) && !step.SRestart? && Next(s, step) == Some(s')
    ensures Mailed(s', Noted(n, s, step))
  {
    if IsLogStep(step) {
      MailedLog(s, n, step, s');
    } else if IsManagerStep(step) {
      MailedManager(s, n, step, s');
    } else if IsOutcomeStep(step) {
      MailedOutcome(s, n, step, s');
    } else if IsQuietStep(step) {
      MailedQuiet(s, n, step, s');
    } else if IsHandStep(step) {
      MailedHand(s, n, step, s');
    } else {
      MailedOutside(s, n, step, s');
    }
  }

  /** Nobody is connected and nothing was delivered yet. */
  lemma NoMail(s: State)
    requires s.inFlight == map[] && s.consumers == map[] && s.mailboxes == map[] && s.hands == map[] && s.delivered == multiset{}
    ensures Mailed(s, BLANK)
  {
    forall q, id ensures |Listing(BLANK.sent, q, id)| + One(AtSend(s, q, id)) == s.delivered[(q, id)] {
      assert Listing(BLANK.sent, q, id) == {};
    }
  }

  lemma {:induction false} ReachableIsMailed(start: State, steps: seq<Step>, s: State)
    requires Reachable(s, start, steps)
    ensures Mailed(s, NotesOf(start, steps))
  {
    if steps == [] {
      NoMail(s);
    } else {
      var init, last := steps[..|steps| - 1], steps[|steps| - 1];
      var before, n := Run(start, init).value, NotesOf(start, init);
      ReachableIsMailed(start, init, before);
      ReachableIsGood(start, init, before);
      if last.SRestart? {
        AfterRestart(before, last, s);
        NoMail(s);
      } else {
        MailedStep(before, n, last, s);
      }
    }
  }

  // ---------------------------------------------------------------------------
  // Every run
  // ---------------------------------------------------------------------------

  /** A send is to the consumer that the dispatcher registered the message with, and to no other. */
  lemma SendAppends(s: State, q: Queue, s': State)
    requires Next(s, SSend(q)) == Some(s')
    ensures q in s.hands && s.hands[q].Sending? && s.hands[q].consumer in s.mailboxes
    ensures var m, c := s.hands[q].msg, s.hands[q].consumer;
      && s'.mailboxes.Keys == s.mailboxes.Keys && s'.mailboxes[c].msgs == s.mailboxes[c].msgs + [m]
      && s'.hands == s.hands[q := Idle]
      && forall d :: d in s.mailboxes && d != c ==> s'.mailboxes[d] == s.mailboxes[d]
  {
  }

  lemma ReceiveTakesFront(s: State, c: ConsumerID, s': State)
    requires Next(s, SReceive(c)) == Some(s')
    ensures c in s.mailboxes && s.mailboxes[c].msgs != [] && s'.mailboxes.Keys == s.mailboxes.Keys
    ensures s.mailboxes[c].msgs == [s.mailboxes[c].msgs[0]] + s'.mailboxes[c].msgs
    ensures forall d :: d in s.mailboxes && d != c ==> s'.mailboxes[d] == s.mailboxes[d]
  {
  }

  /** What was sent to a consumer is what it has received followed by what its channel still holds. */
  lemma MailInOrder(start: State, steps: seq<Step>, s: State, c: ConsumerID)
    requires Reachable(s, start, steps) && c in s.mailboxes
    ensures var n := NotesOf(start, steps);
      c in n.sent && c in n.received && n.sent[c] == n.received[c] + s.mailboxes[c].msgs
    ensures |s.mailboxes[c].msgs| <= s.mailboxes[c].capacity
  {
    ReachableIsMailed(start, steps, s);
  }

  /** Every message in flight is being sent to its consumer, or waits in the consumer's channel, or was received by it. */
  lemma InFlightIsPosted(start: State, steps: seq<Step>, s: State, id: MessageID)
    requires Reachable(s, start, steps) && id in s.inFlight
    ensures var e := s.inFlight[id];
      || (exists q :: Waits(s, q, e.msg, e.consumer))
      || (e.consumer in s.mailboxes && e.msg in s.mailboxes[e.consumer].msgs)
      || e.msg in ListOf(NotesOf(start, steps).received, e.consumer)
  {
    ReachableIsMailed(start, steps, s);
    var n, e := NotesOf(start, steps), s.inFlight[id];
    assert SentOrWaits(s, n, e);
    if e.msg in ListOf(n.sent, e.consumer) {
      assert n.sent[e.consumer] == n.received[e.consumer] + s.mailboxes[e.consumer].msgs;
    }
  }

  /** A message is received at most as often as it was registered. */
  lemma ReceivedIsDelivered(start: State, steps: seq<Step>, s: State, q: Queue, id: MessageID)
    requires Reachable(s, start, steps)
    ensures |Listing(NotesOf(start, steps).received, q, id)| <= s.delivered[(q, id)]
  {
    ReachableIsMailed(start, steps, s);
    var n := NotesOf(start, steps);
    ReceivedIsSent(s, n, q, id);
    assert |Listing(n.sent, q, id)| + One(AtSend(s, q, id)) <= s.delivered[(q, id)];
  }

  lemma ReceivedIsSent(s: State, n: Notes, q: Queue, id: MessageID)
    requires Boxed(s, n)
    ensures Listing(n.received, q, id) <= Listing(n.sent, q, id)
    ensures |Listing(n.received, q, id)| <= |Listing(n.sent, q, id)|
  {
    forall c, i | (c, i) in Listing(n.received, q, id) ensures (c, i) in Listing(n.sent, q, id) {
      assert n.sent[c] == n.received[c] + s.mailboxes[c].msgs;
      assert n.sent[c][i] == n.received[c][i];
    }
    SubsetSize(Listing(n.received, q, id), Listing(n.sent, q, id));
  }

  lemma SubsetSize<T>(a: set<T>, b: set<T>)
    requires a <= b
    ensures |a| <= |b|
  {
    assert b == a + (b - a);
  }

  /** A message is received at most maxRetries + 1 times from its queue and at most once from each dead-letter queue. */
  lemma ReceiptsBounded(start: State, steps: seq<Step>, s: State, id: MessageID, depth: nat)
    requires Reachable(s, start, steps) && id in s.home
    ensures |Listing(NotesOf(start, steps).received, DlqName(s.home[id], depth), id)|
         <= if depth == 0 then Budget(s.maxRetries) + 1 else 1
  {
    ReceivedIsDelivered(start, steps, s, DlqName(s.home[id], depth), id);
    DeliveriesBounded(start, steps, s, id, depth);
  }

  /** Once every dispatcher is done sending and every channel is drained, every registration was received. */
  lemma AllReceived(start: State, steps: seq<Step>, s: State, q: Queue, id: MessageID)
    requires Reachable(s, start, steps) && !s.cancelled && !AtSend(s, q, id)
    requires forall c :: c in s.mailboxes ==> s.mailboxes[c].msgs == []
    ensures |Listing(NotesOf(start, steps).received, q, id)| == s.delivered[(q, id)]
  {
    ReachableIsMailed(start, steps, s);
    var n := NotesOf(start, steps);
    assert |Listing(n.sent, q, id)| + One(AtSend(s, q, id)) == s.delivered[(q, id)];
    forall c | c in n.sent ensures n.received[c] == n.sent[c] {
      assert n.received[c] + [] == n.received[c];
    }
    assert n.received == n.sent;
  }
}
