/**
  Where the side conditions of DeliverySafety come from: runs within one connection meet both,
  taking back the job of another delivery is exactly what can settle a delivery twice, and concrete
  runs show what goes wrong without (A) and (B).  The cause is that the guards compare event IDs, not
  deliveries.
*/
module DeliveryLimits {
  import opened RabbitMQ
  import opened Runs
  import opened DeliveryProtocol
  import opened DeliveryOwnership
  import opened DeliverySafety

  // ---------- one connection ----------

  predicate NotAReset(s: State, a: Action) {
    a != Reconnect(Reset)
  }

  ghost predicate FirstOnly(s: State) {
    WellFormed(s) && s.rabbit.channel == if s.phase == Serving then 1 else 0
  }

  lemma FirstOnlyStep(s: State, a: Action)
    requires FirstOnly(s) && Enabled(s, a) && NotAReset(s, a)
    ensures FirstOnly(Apply(s, a)) && NoLateHandler(s, a)
  {
    WellFormedStep(s, a);
    if !a.Reconnect? {
      ChannelStays(s, a);
    }
  }

  lemma ChannelStays(s: State, a: Action)
    requires Enabled(s, a) && !a.Reconnect?
    ensures Apply(s, a).rabbit.channel == s.rabbit.channel && Apply(s, a).phase == s.phase
  {
    match a
    case Broker(b) =>
    case Consume(ch, c) =>
    case Http(h, p) =>
    case Sweep(w) =>
  }

  lemma {:induction false} FirstConnection(r: Run)
    requires Legal(r) && AllSteps(r, NotAReset)
    ensures AllSteps(r, NoLateHandler) && FirstOnly(End(r))
  {
    match r
    case Start(s) => InitialOwnership(s);
    case Then(before, a) =>
      FirstConnection(before);
      FirstOnlyStep(End(before), a);
  }

  /** As long as the first connection is never reset, a run meets both side conditions. */
  lemma SingleConnectionMeetsBoth(r: Run)
    requires Legal(r) && AllSteps(r, NotAReset)
    ensures AllSteps(r, NoLateInsert) && AllSteps(r, NoLateHandler)
  {
    FirstConnection(r);
    RunsUnderB(r);
  }

  // ---------- exactly when a delivery can be settled twice ----------

  /** Every step that `r` takes after `r0`, which it continues, meets a condition on the state before. */
  ghost predicate AllStepsSince(r0: Run, r: Run, p: (State, Action) -> bool) {
    r == r0 || (r.Then? && AllStepsSince(r0, r.before, p) && p(End(r.before), r.action))
  }

  /** The job a failed trigger is about to take back is not that of its own delivery. */
  predicate FindsForeignEntry(s: State) {
    var stage := StageOf(s, s.rabbit.channel);
    stage.TriggerFailed? && IdOf(s, stage.d) in s.jobs && s.jobs[IdOf(s, stage.d)].delivery != stage.d
  }

  /** `r'` continues `r` with the handler taking back that job, and settles a delivery twice although no
      other failed trigger takes back anything foreign. */
  ghost predicate SettlesTwice(r: Run, r': Run) {
    && Legal(r') && AllStepsSince(Then(r, Consume(End(r).rabbit.channel, Withdraw)), r', HarmlessIfCurrent)
    && End(r').rabbit.unknownTag
  }

  /** The handler's own delivery is settled already, or a checkout is going to settle it. */
  predicate OutOfItsHands(s: State) {
    var stage := StageOf(s, s.rabbit.channel);
    stage.TriggerFailed? && (stage.d in s.rabbit.unacked ==> exists h <- s.checkouts :: s.checkouts[h].d == stage.d)
  }

  /** Taking back a job after a failed trigger can end in a second settlement of a delivery exactly if
      the channel is open, the job found by its ID is of another delivery, and its own delivery is out
      of its hands. */
  lemma SettledTwiceIff(r: Run)
    requires Legal(r) && AllSteps(r, HarmlessIfCurrent) && ConsumerCan(End(r), End(r).rabbit.channel, Withdraw)
    ensures var s := End(r);
            (exists r' :: SettlesTwice(r, r')) <==> s.rabbit.alive && FindsForeignEntry(s) && OutOfItsHands(s)
  {
    SingleSettlement(r);
    RunsOwnEntries(r);
    var s := End(r);
    if s.rabbit.alive && FindsForeignEntry(s) && OutOfItsHands(s) {
      var r' := ForeignEntrySettlesTwice(r);
    } else {
      forall r' | SettlesTwice(r, r') ensures false {
        OwnedAfterWithdraw(s);
        OwnedWhileAliveSince(Then(r, Consume(s.rabbit.channel, Withdraw)), r');
      }
    }
  }

  /** If no failed trigger of an old channel did harm before, the last condition goes without saying. */
  lemma SettledTwiceIffForeignEntry(r: Run)
    requires Legal(r) && AllSteps(r, HarmlessStep) && ConsumerCan(End(r), End(r).rabbit.channel, Withdraw)
    ensures (exists r' :: SettlesTwice(r, r')) <==> End(r).rabbit.alive && FindsForeignEntry(End(r))
  {
    HarmlessInParticular(r);
    NothingOrphaned(r);
    SettledTwiceIff(r);
    var s := End(r);
    if s.rabbit.alive && FindsForeignEntry(s) && StageOf(s, s.rabbit.channel).d in s.rabbit.unacked {
      var h := HeldByCheckout(s);
    }
  }

  lemma {:induction false} HarmlessInParticular(r: Run)
    requires AllSteps(r, HarmlessStep)
    ensures AllSteps(r, HarmlessIfCurrent)
  {
    if r.Then? {
      HarmlessInParticular(r.before);
    }
  }

  lemma ForeignEntrySettlesTwice(r: Run) returns (r': Run)
    requires Legal(r) && Owned(End(r)) && End(r).rabbit.alive
    requires ConsumerCan(End(r), End(r).rabbit.channel, Withdraw) && FindsForeignEntry(End(r)) && OutOfItsHands(End(r))
    ensures SettlesTwice(r, r')
  {
    var s := End(r);
    var ch := s.rabbit.channel;
    var d := StageOf(s, ch).d;
    assert ConsumerShape(s.rabbit, ch, s.consumers[ch]);
    var r1 := Then(r, Consume(ch, Withdraw));
    r' := r1;
    if d in s.rabbit.unacked {
      var h :| h in s.checkouts && s.checkouts[h].d == d;
      r' := FinishFirst(r', h, d);
    }
    r' := RequeueUnknown(r1, r', d);
  }

  /** What such a handler requeues is still with a checkout, if it is not settled yet. */
  lemma HeldByCheckout(s: State) returns (h: nat)
    requires WellFormed(s) && NoOrphans(s) && s.rabbit.alive && FindsForeignEntry(s)
    requires StageOf(s, s.rabbit.channel).d in s.rabbit.unacked
    ensures h in s.checkouts && s.checkouts[h].d == StageOf(s, s.rabbit.channel).d
  {
    var d := StageOf(s, s.rabbit.channel).d;
    assert ConsumerShape(s.rabbit, s.rabbit.channel, s.consumers[s.rabbit.channel]);
    assert HeldBySomeone(s, d);
    var k :| Holds(s, k) && Held(s, k) == d;
    h := k.h;
  }

  lemma FinishFirst(r: Run, h: nat, d: Delivery) returns (r': Run)
    requires Legal(r) && h in End(r).checkouts && End(r).checkouts[h].d == d && d in End(r).rabbit.unacked
    requires End(r).rabbit.alive && d.channel == End(r).rabbit.channel
    ensures Legal(r') && AllStepsSince(r, r', HarmlessIfCurrent)
    ensures End(r').rabbit.alive && End(r').rabbit.channel == End(r).rabbit.channel && d !in End(r').rabbit.unacked
    ensures End(r').consumers == End(r).consumers && !r'.action.Consume? && r'.before == r
  {
    r' := Then(r, Http(h, Finish));
    assert AllStepsSince(r, r, HarmlessIfCurrent) && HarmlessIfCurrent(End(r), Http(h, Finish));
  }

  lemma RequeueUnknown(r0: Run, r: Run, d: Delivery) returns (r': Run)
    requires AllStepsSince(r0, r, HarmlessIfCurrent)
    requires Legal(r) && StageOf(End(r), d.channel) == Withdrawn(d)
    requires End(r).rabbit.alive && d.channel == End(r).rabbit.channel && d !in End(r).rabbit.unacked
    ensures Legal(r') && AllStepsSince(r0, r', HarmlessIfCurrent) && End(r').rabbit.unknownTag
  {
    r' := Then(r, Consume(d.channel, RequeueWithdrawn));
    assert HarmlessIfCurrent(End(r), Consume(d.channel, RequeueWithdrawn));
  }

  /** Ownership is exclusive whenever a channel is open, and nothing was settled twice. */
  ghost predicate OwnedWhileAlive(s: State) {
    WellFormed(s) && !s.rabbit.unknownTag && (s.rabbit.alive ==> Exclusive(s))
  }

  lemma OwnedAfterWithdraw(s: State)
    requires Owned(s) && OwnEntry(s) && ConsumerCan(s, s.rabbit.channel, Withdraw)
    requires !(s.rabbit.alive && FindsForeignEntry(s) && OutOfItsHands(s))
    ensures OwnedWhileAlive(ConsumerStepped(s, s.rabbit.channel, Withdraw))
  {
    WellFormedStep(s, Consume(s.rabbit.channel, Withdraw));
    if s.rabbit.alive {
      if FindsForeignEntry(s) {
        OrphanTakenOver(s);
      } else {
        OwnedStep(s, Consume(s.rabbit.channel, Withdraw));
      }
    }
  }

  /** A handler that takes back a foreign job while nobody holds its own delivery becomes its only
      holder. */
  lemma OrphanTakenOver(s: State)
    requires Owned(s) && OwnEntry(s) && ConsumerCan(s, s.rabbit.channel, Withdraw)
    requires FindsForeignEntry(s) && !OutOfItsHands(s)
    ensures Exclusive(ConsumerStepped(s, s.rabbit.channel, Withdraw))
  {
    var s' := ConsumerStepped(s, s.rabbit.channel, Withdraw);
    var d := StageOf(s, s.rabbit.channel).d;
    assert ConsumerShape(s.rabbit, s.rabbit.channel, s.consumers[s.rabbit.channel]);
    forall k | Holds(s', k) && k != Handler ensures Holds(s, k) && Held(s', k) == Held(s, k) && Held(s, k) != d {
      OnlyHandlerChanges(s, k);
    }
  }

  lemma OnlyHandlerChanges(s: State, k: Holder)
    requires WellFormed(s) && ConsumerCan(s, s.rabbit.channel, Withdraw) && FindsForeignEntry(s) && !OutOfItsHands(s)
    requires Holds(ConsumerStepped(s, s.rabbit.channel, Withdraw), k) && k != Handler
    ensures Holds(s, k) && Held(ConsumerStepped(s, s.rabbit.channel, Withdraw), k) == Held(s, k)
    ensures Held(s, k) != StageOf(s, s.rabbit.channel).d
  {
    assert ConsumerShape(s.rabbit, s.rabbit.channel, s.consumers[s.rabbit.channel]);
  }

  lemma OpenIsExclusive(s: State)
    requires WellFormed(s) && ReconnectCan(s, Open)
    ensures Exclusive(ReconnectStepped(s, Open))
  {
    var s' := ReconnectStepped(s, Open);
    forall k ensures !Holds(s', k) {
      ReconnectHandover(s, Open, k);
    }
  }

  lemma OwnedWhileAliveStep(s: State, a: Action)
    requires OwnedWhileAlive(s) && Enabled(s, a) && HarmlessIfCurrent(s, a)
    ensures OwnedWhileAlive(Apply(s, a))
  {
    if s.rabbit.alive {
      OwnedStep(s, a);
    } else {
      WellFormedStep(s, a);
      if a == Reconnect(Open) {
        OpenIsExclusive(s);
      } else {
        StaysClosed(s, a);
      }
    }
  }

  lemma StaysClosed(s: State, a: Action)
    requires Enabled(s, a) && !s.rabbit.alive && a != Reconnect(Open)
    ensures !Apply(s, a).rabbit.alive && Apply(s, a).rabbit.unknownTag == s.rabbit.unknownTag
  {
    match a
    case Broker(b) =>
    case Reconnect(r) =>
    case Consume(ch, c) =>
    case Http(h, p) =>
    case Sweep(w) =>
  }

  lemma {:induction false} OwnedWhileAliveSince(r0: Run, r: Run)
    requires Legal(r) && AllStepsSince(r0, r, HarmlessIfCurrent) && OwnedWhileAlive(End(r0))
    ensures OwnedWhileAlive(End(r))
  {
    if r != r0 {
      OwnedWhileAliveSince(r0, r.before);
      OwnedWhileAliveStep(End(r.before), r.action);
    }
  }

  // ---------- runs that go wrong ----------

  const NEW_PROCESS: State :=
    State(1, NewBroker(10), Closed, map[], map[], 0, 0, Free, map[], 0, 0)

  const FIRST: Delivery := Delivery(1, 0, 0)
  const SECOND: Delivery := Delivery(2, 0, 0)
  const BODIES: map<Msg, Body> := map[0 := Event("x")]
  const FIRST_OUT: Rabbit := Rabbit(BODIES, {}, {}, {}, 1, true, 1, {FIRST}, 10, false)
  const SECOND_OUT: Rabbit := Rabbit(BODIES, {}, {}, {}, 2, true, 1, {SECOND}, 10, false)

  /** `r` is legal and has reached `s`. */
  ghost predicate Reached(r: Run, s: State) {
    Legal(r) && End(r) == s
  }

  lemma Continue(r: Run, s: State, a: Action, s': State) returns (r': Run)
    requires Reached(r, s) && Enabled(s, a) && Apply(s, a) == s'
    ensures r' == Then(r, a) && Reached(r', s')
    ensures AllSteps(r, NoLateInsert) && NoLateInsert(s, a) ==> AllSteps(r', NoLateInsert)
    ensures !a.Http? && !CheckedOut(r, 0, Reject(false)) ==> !CheckedOut(r', 0, Reject(false))
  {
    r' := Then(r, a);
  }

  /** The first connection is up and message 0, whose event ID is "x", is in the queue. */
  lemma FirstMessage() returns (r: Run, s: State)
    ensures Reached(r, s) && AllSteps(r, NoLateInsert)
    ensures s == NEW_PROCESS.(phase := Serving, consumers := map[1 := Consumer({}, Idle)],
    rabbit := RabbitMQ.Publish(OpenChannel(NEW_PROCESS.rabbit), 0, Event("x")))
  {
    r := Start(NEW_PROCESS);
    s := NEW_PROCESS;
    var s' := s.(phase := Cleaned);
    r := Continue(r, s, Reconnect(Cleanup), s');
    s, s' := s', s'.(phase := Serving, consumers := map[1 := Consumer({}, Idle)], rabbit := OpenChannel(s'.rabbit));
    r := Continue(r, s, Reconnect(Open), s');
    s, s' := s', s'.(rabbit := RabbitMQ.Publish(s'.rabbit, 0, Event("x")));
    r := Continue(r, s, Broker(Publish(0, Event("x"))), s');
    s := s';
  }

  /** It is delivered and its handler is entered. */
  lemma FirstDelivery() returns (r: Run, s: State)
    ensures Reached(r, s) && AllSteps(r, NoLateInsert)
    ensures s == NEW_PROCESS.(phase := Serving, rabbit := FIRST_OUT, consumers := map[1 := Consumer({}, Received(FIRST))])
  {
    r, s := FirstMessage();
    var s' := s.(rabbit := FIRST_OUT, consumers := map[1 := Consumer({FIRST}, Idle)]);
    r := Continue(r, s, Broker(Deliver(0)), s');
    s, s' := s', s'.(consumers := map[1 := Consumer({}, Received(FIRST))]);
    r := Continue(r, s, Consume(1, Receive(FIRST)), s');
    s := s';
  }

  /** The connection breaks and the routine cleans up, all while the first handler is busy. */
  lemma Breakdown(r0: Run, s0: State) returns (r: Run, s: State)
    requires Reached(r0, s0) && AllSteps(r0, NoLateInsert)
    requires s0.phase == Serving && s0.rabbit == FIRST_OUT && s0.lock == Free
    ensures Reached(r, s) && AllSteps(r, NoLateInsert)
    ensures s == s0.(rabbit := FIRST_OUT.(alive := false, ready := {0}), jobs := map[], phase := Cleaned)
  {
    r, s := r0, s0;
    var s' := s.(rabbit := FIRST_OUT.(alive := false, ready := {0}));
    assert Messages({FIRST}) == {0};
    r := Continue(r, s, Broker(LoseConnection), s');
    s, s' := s', s'.(phase := Closed);
    r := Continue(r, s, Reconnect(Reset), s');
    s, s' := s', s'.(phase := Cleaned, jobs := map[]);
    r := Continue(r, s, Reconnect(Cleanup), s');
    s := s';
  }

  /** After the reconnect the message is delivered again. */
  lemma Redelivery(r0: Run, s0: State) returns (r: Run, s: State)
    requires Reached(r0, s0) && AllSteps(r0, NoLateInsert)
    requires s0.phase == Serving && s0.rabbit == FIRST_OUT && s0.lock == Free && s0.consumers.Keys == {1}
    ensures Reached(r, s) && AllSteps(r, NoLateInsert)
    ensures s == s0.(rabbit := SECOND_OUT, jobs := map[], consumers := s0.consumers[2 := Consumer({}, Received(SECOND))])
  {
    r, s := Breakdown(r0, s0);
    var s' := s.(phase := Serving, consumers := s0.consumers[2 := Consumer({}, Idle)], rabbit := OpenChannel(s.rabbit));
    r := Continue(r, s, Reconnect(Open), s');
    s, s' := s', s'.(rabbit := SECOND_OUT, consumers := s0.consumers[2 := Consumer({SECOND}, Idle)]);
    r := Continue(r, s, Broker(Deliver(0)), s');
    s, s' := s', s'.(consumers := s0.consumers[2 := Consumer({}, Received(SECOND))]);
    r := Continue(r, s, Consume(2, Receive(SECOND)), s');
    s := s';
  }

  /** A workload acknowledges the redelivery before its trigger call has returned. */
  lemma EarlyAcknowledge() returns (r: Run, s: State)
    ensures Reached(r, s)
    ensures s == NEW_PROCESS.(phase := Serving, rabbit := SECOND_OUT.(unacked := {}, acked := {0}), inserted := 1, deleted := 1,
    consumers := map[1 := Consumer({}, Received(FIRST)), 2 := Consumer({}, Triggering(SECOND))])
  {
    r, s := FirstDelivery();
    r, s := Redelivery(r, s);
    var s' := s.(jobs := map["x" := Job(0, "x", SECOND)], inserted := 1,
    consumers := map[1 := Consumer({}, Received(FIRST)), 2 := Consumer({}, Triggering(SECOND))]);
    r := Continue(r, s, Consume(2, Register), s');
    s, s' := s', s'.(jobs := map[], deleted := 1, checkouts := map[7 := Checkout(SECOND, Acknowledge(false))]);
    r := Continue(r, s, Http(7, Take("x", Acknowledge(false))), s');
    s, s' := s', s'.(checkouts := map[], rabbit := SECOND_OUT.(unacked := {}, acked := {0}));
    r := Continue(r, s, Http(7, Finish), s');
    s := s';
  }

  /** Without (A) a delivery can be settled twice: the late insert makes the failed trigger of a
      delivery that was acknowledged meanwhile believe the job is still there. */
  lemma LateInsertSettlesTwice() returns (r: Run)
    ensures Legal(r) && End(r).rabbit.unknownTag
  {
    var s;
    r, s := EarlyAcknowledge();
    var done := Consumer({}, Triggering(FIRST));
    var s' := s.(jobs := map["x" := Job(0, "x", FIRST)], inserted := 2,
    consumers := map[1 := done, 2 := Consumer({}, Triggering(SECOND))]);
    r := Continue(r, s, Consume(1, Register), s');
    s, s' := s', s'.(consumers := map[1 := done, 2 := Consumer({}, TriggerFailed(SECOND))]);
    r := Continue(r, s, Consume(2, TriggerReturns(false)), s');
    s, s' := s', s'.(jobs := map[], deleted := 2, consumers := map[1 := done, 2 := Consumer({}, Withdrawn(SECOND))]);
    r := Continue(r, s, Consume(2, Withdraw), s');
    r := Continue(r, s', Consume(2, RequeueWithdrawn), Apply(s', Consume(2, RequeueWithdrawn)));
  }

  /** Without (A) a message can be lost: its redelivery is dropped as a duplicate of a late insert
      of the very same message. */
  lemma LateInsertLosesMessage() returns (r: Run)
    ensures Legal(r) && 0 in End(r).rabbit.discarded
    ensures !HasNamesake(End(r).rabbit, 0) && !CheckedOut(r, 0, Reject(false))
  {
    var s;
    r, s := FirstDelivery();
    r, s := Redelivery(r, s);
    var done := Consumer({}, Triggering(FIRST));
    var s' := s.(jobs := map["x" := Job(0, "x", FIRST)], inserted := 1,
    consumers := map[1 := done, 2 := Consumer({}, Received(SECOND))]);
    assert !CheckedOut(r, 0, Reject(false)) by {
      NoMessageLoss(r, 0);
    }
    r := Continue(r, s, Consume(1, Register), s');
    s, s' := s', s'.(consumers := map[1 := done, 2 := Consumer({}, Duplicate(SECOND))]);
    r := Continue(r, s, Consume(2, Register), s');
    s, s' := s', s'.(rabbit := SECOND_OUT.(unacked := {}, discarded := {0}), consumers := map[1 := done, 2 := Consumer({}, Idle)]);
    r := Continue(r, s, Consume(2, DropDuplicate), s');
  }

  /** An old handler is still calling the workload when the redelivery is recorded. */
  lemma TwoTriggers() returns (r: Run, s: State)
    ensures Reached(r, s) && AllSteps(r, NoLateInsert)
    ensures s == NEW_PROCESS.(phase := Serving, rabbit := SECOND_OUT, inserted := 2, jobs := map["x" := Job(0, "x", SECOND)],
    consumers := map[1 := Consumer({}, Triggering(FIRST)), 2 := Consumer({}, Triggering(SECOND))])
  {
    r, s := FirstDelivery();
    var s' := s.(jobs := map["x" := Job(0, "x", FIRST)], inserted := 1, consumers := map[1 := Consumer({}, Triggering(FIRST))]);
    r := Continue(r, s, Consume(1, Register), s');
    r, s := Redelivery(r, s');
    s' := s.(jobs := map["x" := Job(0, "x", SECOND)], inserted := 2,
    consumers := map[1 := Consumer({}, Triggering(FIRST)), 2 := Consumer({}, Triggering(SECOND))]);
    r := Continue(r, s, Consume(2, Register), s');
    s := s';
  }

  /** (A) does not rule out orphans: if the old trigger fails now, its handler deletes the entry of
      the redelivery, which stays unsettled without anyone to settle it. */
  lemma LateFailureOrphans() returns (r: Run)
    ensures Legal(r) && AllSteps(r, NoLateInsert) && !NoOrphans(End(r))
  {
    var s;
    r, s := TwoTriggers();
    var busy := Consumer({}, Triggering(SECOND));
    var s' := s.(consumers := map[1 := Consumer({}, TriggerFailed(FIRST)), 2 := busy]);
    r := Continue(r, s, Consume(1, TriggerReturns(false)), s');
    s, s' := s', s'.(jobs := map[], deleted := 1, consumers := map[1 := Consumer({}, Withdrawn(FIRST)), 2 := busy]);
    r := Continue(r, s, Consume(1, Withdraw), s');
    assert SECOND in Outstanding(s'.rabbit);
    assert !HeldBySomeone(s', SECOND);
  }
}
