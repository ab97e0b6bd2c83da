/**
  Who is responsible for settling a delivery of the latest channel.

  Four kinds of holder exist.  The central invariant is that no delivery has two holders and that
  whatever a holder holds is still unsettled.  It survives every step but one: a failed trigger
  that takes back the manifest entry of another delivery, because the guard compares event IDs.
*/
module DeliveryOwnership {
  import opened Options
  import opened RabbitMQ
  import opened DeliveryProtocol

  datatype Holder =
    | Stream(d: Delivery)     // delivered, not read by the consumer
    | Handler                 // in the handler, before the insert or after the delete
    | Entry(id: string)       // recorded in the manifest
    | Pending(h: nat)         // taken by a checkout that has not settled yet

  predicate Holds(s: State, k: Holder) {
    var ch := s.rabbit.channel;
    match k
    case Stream(d) => d in UnreadOf(s, ch)
    case Handler => StageOf(s, ch).Received? || StageOf(s, ch).Duplicate? || StageOf(s, ch).Withdrawn?
    case Entry(id) =>
      && id in s.jobs && s.jobs[id].delivery.channel == ch
      && !(s.lock.Sweeping? && s.lock.nacked == Some(id))
    case Pending(h) => h in s.checkouts && s.checkouts[h].d.channel == ch
  }

  function Held(s: State, k: Holder): Delivery
    requires Holds(s, k)
  {
    match k
    case Stream(d) => d
    case Handler => StageOf(s, s.rabbit.channel).d
    case Entry(id) => s.jobs[id].delivery
    case Pending(h) => s.checkouts[h].d
  }

  // ---------- what holds in every run ----------

  predicate HasDelivery(stage: Stage) {
    !stage.Idle? && !stage.Exited?
  }

  predicate Parsed(stage: Stage) {
    stage.Duplicate? || stage.Triggering? || stage.TriggerFailed? || stage.Withdrawn?
  }

  predicate Plausible(r: Rabbit, ch: nat, d: Delivery) {
    d.channel == ch && d.msg in r.bodies && (ch == r.channel ==> d.tag < r.nextTag)
  }

  ghost predicate ConsumerShape(r: Rabbit, ch: nat, c: Consumer) {
    && (forall d <- c.unread :: Plausible(r, ch, d))
    && (HasDelivery(c.stage) ==> Plausible(r, ch, c.stage.d) && c.stage.d !in c.unread)
    && (Parsed(c.stage) ==> r.bodies[c.stage.d.msg].Event?)
  }

  ghost predicate ConsumersShape(r: Rabbit, cs: map<nat, Consumer>) {
    && (forall ch: nat :: ch in cs <==> 1 <= ch <= r.channel)
    && (forall ch <- cs :: ConsumerShape(r, ch, cs[ch]))
  }

  ghost predicate JobsShape(r: Rabbit, jobs: map<string, Job>) {
    forall id <- jobs ::
      var d := jobs[id].delivery;
      jobs[id].id == id && d.channel <= r.channel && d.msg in r.bodies && r.bodies[d.msg] == Event(id)
  }

  ghost predicate CheckoutsShape(r: Rabbit, checkouts: map<nat, Checkout>) {
    forall h <- checkouts :: checkouts[h].d.channel <= r.channel
  }

  ghost predicate LockShape(jobs: map<string, Job>, lock: Lock) {
    lock.Sweeping? ==>
      && lock.todo <= jobs.Keys
      && (lock.nacked.Some? ==> lock.nacked.value in lock.todo)
  }

  /** Shape of every reachable state, without any side condition. */
  ghost predicate WellFormed(s: State) {
    && Consistent(s.rabbit)
    && (s.rabbit.alive ==> s.phase == Serving)
    && ConsumersShape(s.rabbit, s.consumers)
    && JobsShape(s.rabbit, s.jobs)
    && CheckoutsShape(s.rabbit, s.checkouts)
    && LockShape(s.jobs, s.lock)
  }

  /** No delivery has two holders, and what is held can be settled once more. */
  ghost predicate Exclusive(s: State) {
    && (forall k | Holds(s, k) :: Held(s, k) in s.rabbit.unacked)
    && (forall k, l | Holds(s, k) && Holds(s, l) && Held(s, k) == Held(s, l) :: k == l)
  }

  ghost predicate HeldBySomeone(s: State, d: Delivery) {
    exists k :: Holds(s, k) && Held(s, k) == d
  }

  /** Every delivery RabbitMQ still waits for has a holder. */
  ghost predicate NoOrphans(s: State) {
    forall d <- Outstanding(s.rabbit) :: HeldBySomeone(s, d)
  }

  // ---------- the guard that compares IDs ----------

  /** If the consumer of channel `ch` takes back an entry after a failed trigger, the entry is its
      own, or neither the handler nor the entry belongs to the latest channel. */
  predicate Harmless(s: State, ch: nat) {
    StageOf(s, ch).TriggerFailed? ==>
      var d := StageOf(s, ch).d;
      var id := IdOf(s, d);
      id in s.jobs ==>
        || s.jobs[id].delivery == d
        || (ch != s.rabbit.channel && s.jobs[id].delivery.channel != s.rabbit.channel)
  }

  predicate HarmlessIfCurrent(s: State, a: Action) {
    a == Consume(s.rabbit.channel, Withdraw) ==> Harmless(s, s.rabbit.channel)
  }

  predicate HarmlessStep(s: State, a: Action) {
    a.Consume? && a.c == Withdraw ==> Harmless(s, a.ch)
  }

  // ---------- every step keeps the shape ----------

  lemma InitialOwnership(s: State)
    requires Init(s)
    ensures WellFormed(s) && Exclusive(s) && NoOrphans(s)
  {
  }

  lemma WellFormedStep(s: State, a: Action)
    requires WellFormed(s) && Enabled(s, a)
    ensures WellFormed(Apply(s, a))
  {
    match a
    case Broker(b) => BrokerShape(s, b);
    case Reconnect(r) => ReconnectShape(s, r);
    case Consume(ch, c) => ConsumeShape(s, ch, c);
    case Http(h, p) => HttpShape(s, h, p);
    case Sweep(w) => SweepShape(s, w);
  }

  /** The shapes survive whatever RabbitMQ does, as long as no channel is opened. */
  lemma ShapesGrow(s: State, r: Rabbit)
    requires WellFormed(s) && Consistent(r) && Grows(s.rabbit, r) && (r.alive ==> s.phase == Serving)
    requires r.channel == s.rabbit.channel
    ensures WellFormed(s.(rabbit := r))
  {
    forall ch <- s.consumers ensures ConsumerShape(r, ch, s.consumers[ch]) {
      assert ConsumerShape(s.rabbit, ch, s.consumers[ch]);
    }
  }

  lemma ConsumerChanged(s: State, ch: nat, c: Consumer)
    requires WellFormed(s) && ch in s.consumers && ConsumerShape(s.rabbit, ch, c)
    ensures WellFormed(s.(consumers := s.consumers[ch := c]))
  {
  }

  lemma BrokerShape(s: State, b: BrokerStep)
    requires WellFormed(s) && BrokerCan(s, b)
    ensures WellFormed(BrokerStepped(s, b))
  {
    match b {
      case Publish(m, body) => PublishConsistent(s.rabbit, m, body);
      case Deliver(m) => DeliverConsistent(s.rabbit, m);
      case LoseConnection => CloseChannelConsistent(s.rabbit);
      case Tick(_) =>
    }
    var r := BrokerStepped(s, b).rabbit;
    ShapesGrow(s, r);
    if b.Deliver? {
      var ch := s.rabbit.channel;
      var c := s.consumers[ch];
      assert ConsumerShape(r, ch, c);
      ConsumerChanged(s.(rabbit := r), ch, c.(unread := c.unread + {NextDelivery(s.rabbit, b.m)}));
    }
  }

  lemma ReconnectShape(s: State, r: ReconnectStep)
    requires WellFormed(s) && ReconnectCan(s, r)
    ensures WellFormed(ReconnectStepped(s, r))
  {
    match r
    case Reset =>
      CloseChannelConsistent(s.rabbit);
      ShapesGrow(s, CloseChannel(s.rabbit));
    case Cleanup =>
    case Open =>
      OpenChannelConsistent(s.rabbit);
      forall ch <- s.consumers ensures ConsumerShape(OpenChannel(s.rabbit), ch, s.consumers[ch]) {
        assert ConsumerShape(s.rabbit, ch, s.consumers[ch]);
      }
  }

  lemma SettledShape(s: State, d: Delivery, outcome: Outcome)
    requires WellFormed(s)
    ensures WellFormed(Settled(s, d, outcome))
  {
    SettleConsistent(s.rabbit, d, outcome);
    ShapesGrow(s, Settle(s.rabbit, d, outcome));
  }

  lemma ConsumeShape(s: State, ch: nat, c: ConsumerStep)
    requires WellFormed(s) && ConsumerCan(s, ch, c)
    ensures WellFormed(ConsumerStepped(s, ch, c))
  {
    var consumer := s.consumers[ch];
    assert ConsumerShape(s.rabbit, ch, consumer);
    match c
    case Receive(d) => ConsumerChanged(s, ch, Consumer(consumer.unread - {d}, Received(d)));
    case TriggerReturns(ok) => ConsumerChanged(s, ch, ConsumerStepped(s, ch, c).consumers[ch]);
    case Exit => ConsumerChanged(s, ch, consumer.(stage := Exited));
    case Register => RegisterShape(s, ch);
    case Withdraw => WithdrawShape(s, ch);
    case _ =>
      var s1 := Settled(s, consumer.stage.d, Nack(c == RequeueWithdrawn));
      SettledShape(s, consumer.stage.d, Nack(c == RequeueWithdrawn));
      ConsumerChanged(s1, ch, consumer.(stage := Idle));
  }

  lemma RegisterShape(s: State, ch: nat)
    requires WellFormed(s) && ConsumerCan(s, ch, Register)
    ensures WellFormed(ConsumerStepped(s, ch, Register))
  {
    var consumer := s.consumers[ch];
    var d := consumer.stage.d;
    var id := IdOf(s, d);
    assert ConsumerShape(s.rabbit, ch, consumer);
    if id in s.jobs {
      ConsumerChanged(s, ch, consumer.(stage := Duplicate(d)));
    } else {
      ConsumerChanged(Inserted(s, id, d), ch, consumer.(stage := Triggering(d)));
    }
  }

  lemma WithdrawShape(s: State, ch: nat)
    requires WellFormed(s) && ConsumerCan(s, ch, Withdraw)
    ensures WellFormed(ConsumerStepped(s, ch, Withdraw))
  {
    var consumer := s.consumers[ch];
    var id := IdOf(s, consumer.stage.d);
    assert ConsumerShape(s.rabbit, ch, consumer);
    if id in s.jobs {
      ConsumerChanged(Removed(s, id), ch, consumer.(stage := Withdrawn(consumer.stage.d)));
    } else {
      ConsumerChanged(s, ch, consumer.(stage := Idle));
    }
  }

  lemma HttpShape(s: State, h: nat, p: CheckoutStep)
    requires WellFormed(s) && CheckoutCan(s, h, p)
    ensures WellFormed(CheckoutStepped(s, h, p))
  {
    if p.Finish? {
      SettledShape(s, s.checkouts[h].d, OutcomeOf(s.checkouts[h].request));
    }
  }

  lemma SweepShape(s: State, w: SweepStep)
    requires WellFormed(s) && SweepCan(s, w)
    ensures WellFormed(SweepStepped(s, w))
  {
    if w.Visit? {
      SettledShape(s, s.jobs[w.id].delivery, Nack(true));
    }
  }

  // ---------- handing a delivery over ----------

  /** The holder that `k` has its delivery from, for a holder `k` after the step. */
  function Predecessor(s: State, a: Action, k: Holder): Holder {
    match a
    case Consume(ch, c) => if ch == s.rabbit.channel then ConsumerPredecessor(s, c, k) else k
    case Http(h, Take(id, _)) => if k == Pending(h) then Entry(id) else k
    case _ => k
  }

  function ConsumerPredecessor(s: State, c: ConsumerStep, k: Holder): Holder {
    var stage := StageOf(s, s.rabbit.channel);
    match c
    case Receive(d) => if k == Handler then Stream(d) else k
    case Register =>
      if stage.Received? && k == Entry(IdOf(s, stage.d)) && k.id !in s.jobs then Handler else k
    case Withdraw => if stage.TriggerFailed? && k == Handler then Entry(IdOf(s, stage.d)) else k
    case _ => k
  }

  predicate NewlyDelivered(s: State, a: Action, k: Holder) {
    a.Broker? && a.b.Deliver? && k == Stream(NextDelivery(s.rabbit, a.b.m))
  }

  /** The holder a step uses up by settling its delivery on the open channel. */
  function Settler(s: State, a: Action): Option<Holder> {
    match a
    case Consume(ch, c) =>
      if ch == s.rabbit.channel && (c.DropMalformed? || c.DropDuplicate? || c.RequeueWithdrawn?)
      then Some(Handler) else None
    case Http(h, Finish) => if Holds(s, Pending(h)) then Some(Pending(h)) else None
    case Sweep(Visit(id)) =>
      if id in s.jobs && Expired(s, id) && Holds(s, Entry(id)) then Some(Entry(id)) else None
    case _ => None
  }

  /** The holder `k` after a step got its delivery from a holder before it, and not from the one
      that was used up. */
  ghost predicate HandedOver(s: State, a: Action, s': State, k: Holder) {
    Holds(s', k) && !NewlyDelivered(s, a, k) ==>
      && Holds(s, Predecessor(s, a, k))
      && Held(s, Predecessor(s, a, k)) == Held(s', k)
      && Settler(s, a) != Some(Predecessor(s, a, k))
  }

  lemma Handover(s: State, a: Action, k: Holder)
    requires WellFormed(s) && Enabled(s, a) && HarmlessIfCurrent(s, a)
    ensures HandedOver(s, a, Apply(s, a), k)
  {
    if a.Consume? {
      assert ConsumerShape(s.rabbit, a.ch, s.consumers[a.ch]);
    }
    match a
    case Broker(b) => BrokerHandover(s, b, k);
    case Reconnect(r) => ReconnectHandover(s, r, k);
    case Consume(ch, c) =>
      if ch == s.rabbit.channel { ConsumerHandover(s, c, k); } else { OldConsumerHandover(s, ch, c, k); }
    case Http(h, p) => HttpHandover(s, h, p, k);
    case Sweep(w) => SweepHandover(s, w, k);
  }

  lemma BrokerHandover(s: State, b: BrokerStep, k: Holder)
    requires BrokerCan(s, b)
    ensures HandedOver(s, Broker(b), BrokerStepped(s, b), k)
  {
  }

  lemma ReconnectHandover(s: State, r: ReconnectStep, k: Holder)
    requires WellFormed(s) && ReconnectCan(s, r)
    ensures HandedOver(s, Reconnect(r), ReconnectStepped(s, r), k)
  {
  }

  /** What decides who holds what is the same in both states. */
  ghost predicate SameHoldings(s: State, s': State) {
    && s'.rabbit.channel == s.rabbit.channel
    && s'.jobs == s.jobs && s'.lock == s.lock && s'.checkouts == s.checkouts
    && UnreadOf(s', s.rabbit.channel) == UnreadOf(s, s.rabbit.channel)
    && StageOf(s', s.rabbit.channel) == StageOf(s, s.rabbit.channel)
  }

  lemma SameHolder(s: State, s': State, k: Holder)
    requires SameHoldings(s, s')
    ensures Holds(s, k) <==> Holds(s', k)
    ensures Holds(s, k) ==> Held(s, k) == Held(s', k)
  {
  }

  predicate TouchesManifest(c: ConsumerStep) {
    c == Register || c == Withdraw
  }

  predicate SettlesHeld(c: ConsumerStep) {
    c.DropMalformed? || c.DropDuplicate? || c.RequeueWithdrawn?
  }

  lemma OldConsumerKeepsHoldings(s: State, ch: nat, c: ConsumerStep)
    requires ConsumerCan(s, ch, c) && ch != s.rabbit.channel && !TouchesManifest(c)
    ensures SameHoldings(s, ConsumerStepped(s, ch, c))
  {
  }

  /** The handler is done with its delivery, or only moves on. */
  lemma ConsumerOnlyMoves(s: State, c: ConsumerStep, k: Holder)
    requires ConsumerCan(s, s.rabbit.channel, c) && !TouchesManifest(c) && !c.Receive?
    ensures var s' := ConsumerStepped(s, s.rabbit.channel, c);
            && (Holds(s', k) <==> Holds(s, k) && !(SettlesHeld(c) && k == Handler))
            && (Holds(s', k) ==> Held(s', k) == Held(s, k))
  {
  }

  lemma ConsumerHandover(s: State, c: ConsumerStep, k: Holder)
    requires ConsumerCan(s, s.rabbit.channel, c)
    requires ConsumerShape(s.rabbit, s.rabbit.channel, s.consumers[s.rabbit.channel])
    requires c == Withdraw ==> Harmless(s, s.rabbit.channel)
    ensures HandedOver(s, Consume(s.rabbit.channel, c), ConsumerStepped(s, s.rabbit.channel, c), k)
  {
    match c
    case Receive(d) => ReceiveHandover(s, d, k);
    case Register => RegisterHandover(s, k);
    case Withdraw => WithdrawHandover(s, k);
    case _ => MoveHandover(s, c, k);
  }

  lemma MoveHandover(s: State, c: ConsumerStep, k: Holder)
    requires ConsumerCan(s, s.rabbit.channel, c) && !TouchesManifest(c) && !c.Receive?
    ensures HandedOver(s, Consume(s.rabbit.channel, c), ConsumerStepped(s, s.rabbit.channel, c), k)
  {
    ConsumerOnlyMoves(s, c, k);
  }

  lemma ReceiveHandover(s: State, d: Delivery, k: Holder)
    requires ConsumerCan(s, s.rabbit.channel, Receive(d))
    ensures HandedOver(s, Consume(s.rabbit.channel, Receive(d)), ConsumerStepped(s, s.rabbit.channel, Receive(d)), k)
  {
  }

  lemma RegisterHandover(s: State, k: Holder)
    requires ConsumerCan(s, s.rabbit.channel, Register)
    ensures HandedOver(s, Consume(s.rabbit.channel, Register), ConsumerStepped(s, s.rabbit.channel, Register), k)
  {
  }

  lemma WithdrawHandover(s: State, k: Holder)
    requires ConsumerCan(s, s.rabbit.channel, Withdraw) && Harmless(s, s.rabbit.channel)
    requires StageOf(s, s.rabbit.channel).d.channel == s.rabbit.channel
    ensures HandedOver(s, Consume(s.rabbit.channel, Withdraw), ConsumerStepped(s, s.rabbit.channel, Withdraw), k)
  {
  }

  lemma OldConsumerHandover(s: State, ch: nat, c: ConsumerStep, k: Holder)
    requires ConsumerCan(s, ch, c) && ch != s.rabbit.channel
    requires ConsumerShape(s.rabbit, ch, s.consumers[ch])
    ensures HandedOver(s, Consume(ch, c), ConsumerStepped(s, ch, c), k)
  {
    match c
    case Register => OldRegisterHandover(s, ch, k);
    case Withdraw => OldWithdrawHandover(s, ch, k);
    case _ =>
      OldConsumerKeepsHoldings(s, ch, c);
      SameHolder(s, ConsumerStepped(s, ch, c), k);
  }

  lemma OldRegisterHandover(s: State, ch: nat, k: Holder)
    requires ConsumerCan(s, ch, Register) && ch != s.rabbit.channel
    requires StageOf(s, ch).d.channel == ch
    ensures HandedOver(s, Consume(ch, Register), ConsumerStepped(s, ch, Register), k)
  {
  }

  lemma OldWithdrawHandover(s: State, ch: nat, k: Holder)
    requires ConsumerCan(s, ch, Withdraw) && ch != s.rabbit.channel
    ensures HandedOver(s, Consume(ch, Withdraw), ConsumerStepped(s, ch, Withdraw), k)
  {
  }

  lemma HttpHandover(s: State, h: nat, p: CheckoutStep, k: Holder)
    requires CheckoutCan(s, h, p)
    ensures HandedOver(s, Http(h, p), CheckoutStepped(s, h, p), k)
  {
  }

  lemma SweepHandover(s: State, w: SweepStep, k: Holder)
    requires SweepCan(s, w)
    ensures HandedOver(s, Sweep(w), SweepStepped(s, w), k)
  {
  }

  lemma NoTwoFromOne(s: State, a: Action, k: Holder, l: Holder)
    requires Enabled(s, a)
    requires Holds(Apply(s, a), k) && Holds(Apply(s, a), l) && Predecessor(s, a, k) == Predecessor(s, a, l)
    ensures k == l
  {
    match a
    case Broker(b) =>
    case Reconnect(r) =>
    case Consume(ch, c) =>
      if ch == s.rabbit.channel {
        ConsumerNoTwo(s, c, k, l);
      }
    case Http(h, p) => HttpNoTwo(s, h, p, k, l);
    case Sweep(w) =>
  }

  lemma ConsumerNoTwo(s: State, c: ConsumerStep, k: Holder, l: Holder)
    requires ConsumerCan(s, s.rabbit.channel, c)
    requires var s' := ConsumerStepped(s, s.rabbit.channel, c); Holds(s', k) && Holds(s', l)
    requires ConsumerPredecessor(s, c, k) == ConsumerPredecessor(s, c, l)
    ensures k == l
  {
  }

  lemma HttpNoTwo(s: State, h: nat, p: CheckoutStep, k: Holder, l: Holder)
    requires CheckoutCan(s, h, p)
    requires var s' := CheckoutStepped(s, h, p); Holds(s', k) && Holds(s', l)
    requires Predecessor(s, Http(h, p), k) == Predecessor(s, Http(h, p), l)
    ensures k == l
  {
  }

  // ---------- exclusive ownership ----------

  lemma HolderSettles(s: State, k: Holder, d: Delivery, outcome: Outcome)
    requires Exclusive(s) && (d.channel == s.rabbit.channel ==> Holds(s, k) && Held(s, k) == d)
    ensures Settle(s.rabbit, d, outcome).unknownTag == s.rabbit.unknownTag
    ensures Settle(s.rabbit, d, outcome).unacked == if CanSettle(s.rabbit, d) then s.rabbit.unacked - {d} else s.rabbit.unacked
  {
  }

  /** A step settles what its settler holds, if anything, and causes no channel error. */
  ghost predicate SettlesOwn(s: State, a: Action, r: Rabbit) {
    var k := Settler(s, a);
    && r.unknownTag == s.rabbit.unknownTag && (r.alive ==> s.rabbit.alive)
    && (k.Some? ==> Holds(s, k.value))
    && var settled := if k.Some? && s.rabbit.alive then {Held(s, k.value)} else {};
       var arrived := if a.Broker? && a.b.Deliver? then {NextDelivery(s.rabbit, a.b.m)} else {};
       r.unacked == s.rabbit.unacked - settled + arrived
  }

  lemma Settlements(s: State, a: Action)
    requires WellFormed(s) && Exclusive(s) && Enabled(s, a) && a != Reconnect(Open)
    ensures SettlesOwn(s, a, Apply(s, a).rabbit)
  {
    match a
    case Broker(b) => BrokerSettles(s, b);
    case Reconnect(r) => ReconnectSettles(s, r);
    case Consume(ch, c) =>
      assert ConsumerShape(s.rabbit, ch, s.consumers[ch]);
      ConsumerSettles(s, ch, c);
    case Http(h, p) => HttpSettles(s, h, p);
    case Sweep(w) => SweepSettles(s, w);
  }

  lemma BrokerSettles(s: State, b: BrokerStep)
    requires BrokerCan(s, b)
    ensures SettlesOwn(s, Broker(b), BrokerStepped(s, b).rabbit)
  {
  }

  lemma ReconnectSettles(s: State, r: ReconnectStep)
    requires ReconnectCan(s, r) && r != Open
    ensures SettlesOwn(s, Reconnect(r), ReconnectStepped(s, r).rabbit)
  {
  }

  lemma HttpSettles(s: State, h: nat, p: CheckoutStep)
    requires Exclusive(s) && CheckoutCan(s, h, p)
    ensures SettlesOwn(s, Http(h, p), CheckoutStepped(s, h, p).rabbit)
  {
    if p.Finish? {
      HolderSettles(s, Pending(h), s.checkouts[h].d, OutcomeOf(s.checkouts[h].request));
    }
  }

  lemma ConsumerSettles(s: State, ch: nat, c: ConsumerStep)
    requires Exclusive(s) && ConsumerCan(s, ch, c) && ConsumerShape(s.rabbit, ch, s.consumers[ch])
    ensures SettlesOwn(s, Consume(ch, c), ConsumerStepped(s, ch, c).rabbit)
  {
    if c.DropMalformed? || c.DropDuplicate? || c.RequeueWithdrawn? {
      HolderSettles(s, Handler, StageOf(s, ch).d, Nack(c == RequeueWithdrawn));
    }
  }

  lemma SweepSettles(s: State, w: SweepStep)
    requires Exclusive(s) && SweepCan(s, w)
    ensures SettlesOwn(s, Sweep(w), SweepStepped(s, w).rabbit)
  {
    if w.Visit? {
      HolderSettles(s, Entry(w.id), s.jobs[w.id].delivery, Nack(true));
    }
  }

  lemma ExclusiveStep(s: State, a: Action)
    requires WellFormed(s) && Exclusive(s) && Enabled(s, a) && HarmlessIfCurrent(s, a)
    ensures Exclusive(Apply(s, a))
  {
    var s' := Apply(s, a);
    if a == Reconnect(Open) {
      forall k ensures !Holds(s', k) {
        Handover(s, a, k);
      }
      return;
    }
    Settlements(s, a);
    forall k | Holds(s', k) ensures Held(s', k) in s'.rabbit.unacked {
      Handover(s, a, k);
    }
    forall k, l | Holds(s', k) && Holds(s', l) && Held(s', k) == Held(s', l) ensures k == l {
      Handover(s, a, k);
      Handover(s, a, l);
      if Predecessor(s, a, k) == Predecessor(s, a, l) {
        NoTwoFromOne(s, a, k, l);
      }
    }
  }

  // ---------- no orphans ----------

  /** The holder that takes over what `k` holds before the step. */
  function Successor(s: State, a: Action, k: Holder): Holder {
    match a
    case Consume(ch, c) => if ch == s.rabbit.channel then ConsumerSuccessor(s, c, k) else k
    case Http(h, Take(id, _)) => if k == Entry(id) then Pending(h) else k
    case _ => k
  }

  function ConsumerSuccessor(s: State, c: ConsumerStep, k: Holder): Holder {
    var stage := StageOf(s, s.rabbit.channel);
    match c
    case Receive(d) => if k == Stream(d) then Handler else k
    case Register =>
      if stage.Received? && k == Handler && IdOf(s, stage.d) !in s.jobs then Entry(IdOf(s, stage.d)) else k
    case Withdraw => if stage.TriggerFailed? && k == Entry(IdOf(s, stage.d)) then Handler else k
    case _ => k
  }

  ghost predicate TakenOver(s: State, a: Action, s': State, k: Holder) {
    Holds(s, k) && Settler(s, a) != Some(k) ==>
      && Holds(s', Successor(s, a, k))
      && Held(s', Successor(s, a, k)) == Held(s, k)
  }

  lemma ConsumerTakeover(s: State, c: ConsumerStep, k: Holder)
    requires ConsumerCan(s, s.rabbit.channel, c)
    requires ConsumerShape(s.rabbit, s.rabbit.channel, s.consumers[s.rabbit.channel])
    requires c == Withdraw ==> Harmless(s, s.rabbit.channel)
    ensures TakenOver(s, Consume(s.rabbit.channel, c), ConsumerStepped(s, s.rabbit.channel, c), k)
  {
    match c
    case Receive(d) => ReceiveTakeover(s, d, k);
    case Register => RegisterTakeover(s, k);
    case Withdraw => WithdrawTakeover(s, k);
    case _ => MoveTakeover(s, c, k);
  }

  lemma MoveTakeover(s: State, c: ConsumerStep, k: Holder)
    requires ConsumerCan(s, s.rabbit.channel, c) && !TouchesManifest(c) && !c.Receive?
    ensures TakenOver(s, Consume(s.rabbit.channel, c), ConsumerStepped(s, s.rabbit.channel, c), k)
  {
    ConsumerOnlyMoves(s, c, k);
  }

  lemma ReceiveTakeover(s: State, d: Delivery, k: Holder)
    requires ConsumerCan(s, s.rabbit.channel, Receive(d))
    ensures TakenOver(s, Consume(s.rabbit.channel, Receive(d)), ConsumerStepped(s, s.rabbit.channel, Receive(d)), k)
  {
  }

  lemma RegisterTakeover(s: State, k: Holder)
    requires ConsumerCan(s, s.rabbit.channel, Register)
    requires StageOf(s, s.rabbit.channel).d.channel == s.rabbit.channel
    ensures TakenOver(s, Consume(s.rabbit.channel, Register), ConsumerStepped(s, s.rabbit.channel, Register), k)
  {
  }

  lemma WithdrawTakeover(s: State, k: Holder)
    requires ConsumerCan(s, s.rabbit.channel, Withdraw) && Harmless(s, s.rabbit.channel)
    ensures TakenOver(s, Consume(s.rabbit.channel, Withdraw), ConsumerStepped(s, s.rabbit.channel, Withdraw), k)
  {
  }

  lemma OldConsumerTakeover(s: State, ch: nat, c: ConsumerStep, k: Holder)
    requires ConsumerCan(s, ch, c) && ch != s.rabbit.channel
    requires ConsumerShape(s.rabbit, ch, s.consumers[ch])
    requires c == Withdraw ==> Harmless(s, ch)
    ensures TakenOver(s, Consume(ch, c), ConsumerStepped(s, ch, c), k)
  {
    match c
    case Register => OldRegisterTakeover(s, ch, k);
    case Withdraw => OldWithdrawTakeover(s, ch, k);
    case _ =>
      OldConsumerKeepsHoldings(s, ch, c);
      SameHolder(s, ConsumerStepped(s, ch, c), k);
  }

  lemma OldRegisterTakeover(s: State, ch: nat, k: Holder)
    requires ConsumerCan(s, ch, Register) && ch != s.rabbit.channel
    ensures TakenOver(s, Consume(ch, Register), ConsumerStepped(s, ch, Register), k)
  {
  }

  lemma OldWithdrawTakeover(s: State, ch: nat, k: Holder)
    requires ConsumerCan(s, ch, Withdraw) && ch != s.rabbit.channel && Harmless(s, ch)
    requires StageOf(s, ch).d.channel == ch
    ensures TakenOver(s, Consume(ch, Withdraw), ConsumerStepped(s, ch, Withdraw), k)
  {
  }

  lemma BrokerTakeover(s: State, b: BrokerStep, k: Holder)
    requires BrokerCan(s, b)
    ensures TakenOver(s, Broker(b), BrokerStepped(s, b), k)
  {
  }

  lemma HttpTakeover(s: State, h: nat, p: CheckoutStep, k: Holder)
    requires CheckoutCan(s, h, p)
    ensures TakenOver(s, Http(h, p), CheckoutStepped(s, h, p), k)
  {
  }

  lemma SweepTakeover(s: State, w: SweepStep, k: Holder)
    requires SweepCan(s, w)
    ensures TakenOver(s, Sweep(w), SweepStepped(s, w), k)
  {
  }

  lemma Takeover(s: State, a: Action, k: Holder)
    requires WellFormed(s) && Enabled(s, a) && HarmlessStep(s, a) && !a.Reconnect?
    ensures TakenOver(s, a, Apply(s, a), k)
  {
    if a.Consume? {
      assert ConsumerShape(s.rabbit, a.ch, s.consumers[a.ch]);
    }
    match a
    case Broker(b) => BrokerTakeover(s, b, k);
    case Consume(ch, c) =>
      if ch == s.rabbit.channel { ConsumerTakeover(s, c, k); } else { OldConsumerTakeover(s, ch, c, k); }
    case Http(h, p) => HttpTakeover(s, h, p, k);
    case Sweep(w) => SweepTakeover(s, w, k);
  }

  lemma NoOrphansStep(s: State, a: Action)
    requires WellFormed(s) && Exclusive(s) && NoOrphans(s) && Enabled(s, a) && HarmlessStep(s, a)
    ensures NoOrphans(Apply(s, a))
  {
    var s' := Apply(s, a);
    if !a.Reconnect? {
      Settlements(s, a);
      forall d <- Outstanding(s'.rabbit) ensures HeldBySomeone(s', d) {
        StillHeld(s, a, d);
      }
    }
  }

  lemma StillHeld(s: State, a: Action, d: Delivery)
    requires WellFormed(s) && NoOrphans(s) && Enabled(s, a) && HarmlessStep(s, a) && !a.Reconnect?
    requires SettlesOwn(s, a, Apply(s, a).rabbit) && d in Outstanding(Apply(s, a).rabbit)
    ensures HeldBySomeone(Apply(s, a), d)
  {
    if NewlyDelivered(s, a, Stream(d)) {
      assert Holds(Apply(s, a), Stream(d));
    } else {
      OutstandingBefore(s, a, d);
      var k :| Holds(s, k) && Held(s, k) == d;
      Takeover(s, a, k);
      assert Holds(Apply(s, a), Successor(s, a, k));
    }
  }

  /** What is outstanding after a step and did not just arrive was held before, and is not settled. */
  lemma OutstandingBefore(s: State, a: Action, d: Delivery)
    requires NoOrphans(s) && Enabled(s, a) && !a.Reconnect?
    requires SettlesOwn(s, a, Apply(s, a).rabbit) && d in Outstanding(Apply(s, a).rabbit)
    requires !NewlyDelivered(s, a, Stream(d))
    ensures HeldBySomeone(s, d)
    ensures Settler(s, a).Some? ==> Held(s, Settler(s, a).value) != d
  {
    assert d in Outstanding(s.rabbit);
  }

  // ---------- the one step that can break it ----------

  /** Exactly when taking back an entry after a failed trigger keeps every outstanding delivery with
      exactly one holder. */
  lemma WithdrawKeepsOwnershipIffHarmless(s: State, ch: nat)
    requires WellFormed(s) && Exclusive(s) && NoOrphans(s) && s.rabbit.alive
    requires ConsumerCan(s, ch, Withdraw)
    ensures var s' := ConsumerStepped(s, ch, Withdraw);
            Exclusive(s') && NoOrphans(s') <==> Harmless(s, ch)
  {
    var a := Consume(ch, Withdraw);
    var s' := ConsumerStepped(s, ch, Withdraw);
    var d := StageOf(s, ch).d;
    var id := IdOf(s, d);
    if Harmless(s, ch) {
      ExclusiveStep(s, a);
      NoOrphansStep(s, a);
    } else {
      var e := s.jobs[id].delivery;
      assert ConsumerShape(s.rabbit, ch, s.consumers[ch]);
      if e.channel == s.rabbit.channel {
        LiveEntryOrphaned(s, ch);
      } else {
        // the handler holds a delivery that a checkout holds too, or that is settled already
        assert Holds(s', Handler) && Held(s', Handler) == d;
        if d in s'.rabbit.unacked {
          assert HeldBySomeone(s, d);
          var k :| Holds(s, k) && Held(s, k) == d;
          assert Holds(s', k) && Held(s', k) == d && k != Handler;
        }
      }
    }
  }

  lemma LiveEntryOrphaned(s: State, ch: nat)
    requires WellFormed(s) && Exclusive(s) && s.rabbit.alive
    requires ConsumerCan(s, ch, Withdraw) && !Harmless(s, ch)
    requires s.jobs[IdOf(s, StageOf(s, ch).d)].delivery.channel == s.rabbit.channel
    ensures !NoOrphans(ConsumerStepped(s, ch, Withdraw))
  {
    var s' := ConsumerStepped(s, ch, Withdraw);
    var id := IdOf(s, StageOf(s, ch).d);
    var e := s.jobs[id].delivery;
    assert Holds(s, Entry(id));
    forall k | Holds(s', k) ensures Held(s', k) != e {
      if k != Handler || ch != s.rabbit.channel {
        assert Holds(s, k) && Held(s, k) == Held(s', k);
      }
    }
    assert !HeldBySomeone(s', e);
  }
}
