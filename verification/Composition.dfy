/**
  The connection lifecycle and the delivery protocol as one system.

  A step of the whole is a step of either.  Those steps of the lifecycle that open, close or clean up
  something the deliveries depend on take the matching step of the delivery protocol along; the
  delivery protocol takes no such step by itself.
*/
module Composition {
  import opened Options
  import opened Runs
  import L = Lifecycle
  import LS = LifecycleSafety
  import D = DeliveryProtocol
  import DO = DeliveryOwnership
  import DS = DeliverySafety
  import DA = DeliveryAccounting

  datatype Whole = Whole(l: L.State, d: D.State)

  datatype Step = Connection(a: L.Action) | Delivery(b: D.Action)

  /** Steps that only the lifecycle brings about. */
  predicate ConnectionLevel(b: D.Action) {
    b.Reconnect? || b == D.Broker(D.LoseConnection)
  }

  /** What a lifecycle step means for the deliveries, if anything. */
  function Image(l: L.State, a: L.Action, d: D.State): Option<D.Action> {
    match a
    case Connect(ResetAll) => if d.phase == D.Closed then None else Some(D.Reconnect(D.Reset))
    case Connect(CleanDone) => Some(D.Reconnect(D.Cleanup))
    case StartUp(StartConsumer(ok)) => if ok && !l.running then Some(D.Reconnect(D.Open)) else None
    case Other(LoseConnection(_)) => if d.rabbit.alive then Some(D.Broker(D.LoseConnection)) else None
    case Other(FinishTeardown) => if d.rabbit.alive then Some(D.Broker(D.LoseConnection)) else None
    case _ => None
  }

  function Imaged(l: L.State, a: L.Action, d: D.State): D.State {
    match Image(l, a, d)
    case None => d
    case Some(b) => if D.Enabled(d, b) then D.Apply(d, b) else d
  }

  /** The manifest lock is the only thing of the deliveries that the routine waits for. */
  predicate Can(w: Whole, step: Step) {
    match step
    case Connection(a) => L.Enabled(w.l, a) && (a == L.Connect(L.CleanDone) ==> w.d.lock == D.Free)
    case Delivery(b) => D.Enabled(w.d, b) && !ConnectionLevel(b)
  }

  function Stepped(w: Whole, step: Step): Whole
    requires Can(w, step)
  {
    match step
    case Connection(a) => Whole(L.Apply(w.l, a), Imaged(w.l, a, w.d))
    case Delivery(b) => w.(d := D.Apply(w.d, b))
  }

  // ---------- how the two fit together ----------

  /** The routine has cleaned the manifest and not started a consumer since. */
  predicate BetweenCleanupAndStart(r: L.Routine) {
    (LS.Early(r) && r != L.Cleaning) || r == L.ChannelsStored || r == L.Starting
  }

  /** The broker has a consumer on an open channel. */
  predicate Consuming(l: L.State) {
    l.running && l.consume.Some? && L.IsOpen(l, l.consume.value)
  }

  /** One delivery channel per consumer started; its channel is open while the broker consumes, unless
      AMPS has caused a channel error; and the reconnect routine is equally far in both. */
  predicate Fits(l: L.State, d: D.State) {
    && |l.readers| == d.rabbit.channel
    && (d.rabbit.alive ==> Consuming(l))
    && (Consuming(l) && !d.rabbit.unknownTag ==> d.rabbit.alive)
    && (l.routine == L.Cleaning ==> d.phase == D.Closed)
    && (BetweenCleanupAndStart(l.routine) ==> d.phase == D.Cleaned)
  }

  ghost predicate Sound(w: Whole) {
    LS.Inv(w.l) && LS.Coherent(w.l) && DO.WellFormed(w.d) && Fits(w.l, w.d)
  }

  /** The deliveries can follow, and the two still fit. */
  predicate Follows(l: L.State, a: L.Action, l': L.State, d: D.State) {
    && (Image(l, a, d).Some? ==> D.Enabled(d, Image(l, a, d).value))
    && Fits(l', Imaged(l, a, d))
  }

  lemma ConnectFollowed(l: L.State, step: L.ConnectStep, d: D.State)
    requires LS.Latest(l) && Fits(l, d) && (d.rabbit.alive ==> d.phase == D.Serving)
    requires L.ConnectCan(l, step) && (step == L.CleanDone ==> d.lock == D.Free)
    ensures Follows(l, L.Connect(step), L.ConnectStepped(l, step), d)
  {
    match step
    case ResetAll => ResetFollowed(l, d);
    case CleanDone => CleanupFollowed(l, d);
    case _ => DialingFollowed(l, step, d);
  }

  lemma ResetFollowed(l: L.State, d: D.State)
    requires Fits(l, d) && (d.rabbit.alive ==> d.phase == D.Serving) && L.ConnectCan(l, L.ResetAll)
    ensures Follows(l, L.Connect(L.ResetAll), L.ConnectStepped(l, L.ResetAll), d)
  {
    LS.ReleaseFacts(l.(running := false, connected := false, initialized := false));
  }

  lemma CleanupFollowed(l: L.State, d: D.State)
    requires Fits(l, d) && L.ConnectCan(l, L.CleanDone) && d.lock == D.Free
    ensures Follows(l, L.Connect(L.CleanDone), L.ConnectStepped(l, L.CleanDone), d)
  {
  }

  lemma DialingFollowed(l: L.State, step: L.ConnectStep, d: D.State)
    requires LS.Latest(l) && Fits(l, d) && L.ConnectCan(l, step) && step != L.ResetAll && step != L.CleanDone
    ensures Follows(l, L.Connect(step), L.ConnectStepped(l, step), d)
  {
  }

  lemma ChannelFollowed(l: L.State, step: L.ChannelStep, d: D.State)
    requires LS.Latest(l) && LS.Coherent(l) && Fits(l, d) && L.ChannelCan(l, step)
    ensures Follows(l, L.Channels(step), L.ChannelStepped(l, step), d)
  {
  }

  lemma StartFollowed(l: L.State, step: L.StartStep, d: D.State)
    requires LS.Readers(l) && Fits(l, d) && (d.rabbit.alive ==> d.phase == D.Serving)
    requires L.StartCan(l, step)
    ensures Follows(l, L.StartUp(step), L.StartStepped(l, step), d)
  {
    match step
    case StartConsumer(ok) =>
      if ok {
        ConsumerStartFollowed(l, d);
      } else {
        PlainStartFollowed(l, step, d);
      }
    case _ => PlainStartFollowed(l, step, d);
  }

  lemma PlainStartFollowed(l: L.State, step: L.StartStep, d: D.State)
    requires Fits(l, d) && L.StartCan(l, step) && step != L.StartConsumer(true)
    ensures Follows(l, L.StartUp(step), L.StartStepped(l, step), d)
  {
    StillFits(l, L.StartStepped(l, step), d);
  }

  lemma StillFits(l: L.State, l': L.State, d: D.State)
    requires Fits(l, d) && l'.routine != L.Cleaning
    requires BetweenCleanupAndStart(l'.routine) ==> BetweenCleanupAndStart(l.routine)
    requires l'.readers == l.readers && l'.running == l.running && l'.consume == l.consume
    requires l'.unclosed == l.unclosed && l'.open == l.open
    ensures Fits(l', d)
  {
  }

  lemma ConsumerStartFollowed(l: L.State, d: D.State)
    requires Fits(l, d) && (d.rabbit.alive ==> d.phase == D.Serving)
    requires L.StartCan(l, L.StartConsumer(true)) && !l.running
    ensures Follows(l, L.StartUp(L.StartConsumer(true)), L.StartStepped(l, L.StartConsumer(true)), d)
  {
    assert |l.readers + multiset{l.consume.value}| == |l.readers| + 1;
  }

  lemma OtherFollowed(l: L.State, step: L.OtherStep, d: D.State)
    requires LS.Latest(l) && Fits(l, d) && L.OtherCan(l, step)
    ensures Follows(l, L.Other(step), L.OtherStepped(l, step), d)
  {
    if LS.Disruptive(step) {
      LS.ReleaseFacts(l);
    } else {
      LS.SignallersOnly(l, step);
    }
  }

  lemma ConnectionFollowed(w: Whole, a: L.Action)
    requires Sound(w) && Can(w, Connection(a))
    ensures Follows(w.l, a, L.Apply(w.l, a), w.d)
  {
    match a
    case Connect(step) => ConnectFollowed(w.l, step, w.d);
    case Channels(step) => ChannelFollowed(w.l, step, w.d);
    case StartUp(step) => StartFollowed(w.l, step, w.d);
    case Other(step) => OtherFollowed(w.l, step, w.d);
  }

  /** The deliveries by themselves change nothing the lifecycle relies on: only a channel error closes
      the channel. */
  predicate LeavesConnection(d: D.State, d': D.State) {
    && d'.rabbit.channel == d.rabbit.channel && d'.phase == d.phase
    && (d'.rabbit.alive ==> d.rabbit.alive)
    && (d.rabbit.alive && !d'.rabbit.unknownTag ==> d'.rabbit.alive)
    && (d.rabbit.unknownTag ==> d'.rabbit.unknownTag)
  }

  lemma DeliveryLeavesConnection(d: D.State, b: D.Action)
    requires D.Enabled(d, b) && !ConnectionLevel(b)
    ensures LeavesConnection(d, D.Apply(d, b))
  {
    match b
    case Broker(step) =>
    case Consume(ch, c) => ConsumerLeavesConnection(d, ch, c);
    case Http(h, p) => HttpLeavesConnection(d, h, p);
    case Sweep(x) => SweepLeavesConnection(d, x);
  }

  lemma ConsumerLeavesConnection(d: D.State, ch: nat, c: D.ConsumerStep)
    requires D.ConsumerCan(d, ch, c)
    ensures LeavesConnection(d, D.ConsumerStepped(d, ch, c))
  {
  }

  lemma HttpLeavesConnection(d: D.State, h: nat, p: D.CheckoutStep)
    requires D.CheckoutCan(d, h, p)
    ensures LeavesConnection(d, D.CheckoutStepped(d, h, p))
  {
  }

  lemma SweepLeavesConnection(d: D.State, x: D.SweepStep)
    requires D.SweepCan(d, x)
    ensures LeavesConnection(d, D.SweepStepped(d, x))
  {
  }

  // ---------- runs of the whole ----------

  type Run = History<Whole, Step>

  predicate Legal(r: Run) {
    match r
    case Start(w) => L.Init(w.l) && D.Init(w.d)
    case Then(before, step) => Legal(before) && Can(End(before), step)
  }

  function End(r: Run): Whole {
    match r
    case Start(w) => w
    case Then(before, step) => if Can(End(before), step) then Stepped(End(before), step) else End(before)
  }

  /** What a run of the whole does to the connection. */
  function ConnectionRun(r: Run): L.Run {
    match r
    case Start(w) => Start(w.l)
    case Then(before, step) => if step.Connection? then Then(ConnectionRun(before), step.a) else ConnectionRun(before)
  }

  /** What a run of the whole does to the deliveries. */
  function DeliveryRun(r: Run): D.Run {
    match r
    case Start(w) => Start(w.d)
    case Then(before, Delivery(b)) => Then(DeliveryRun(before), b)
    case Then(before, Connection(a)) =>
      match Image(End(before).l, a, End(before).d)
      case None => DeliveryRun(before)
      case Some(b) => Then(DeliveryRun(before), b)
  }

  /** Both projections of a run of the whole are runs of the two step systems, ending in its two
      halves, and the halves fit.  So what LifecycleSafety and DeliverySafety prove of every run holds
      of the whole. */
  lemma {:induction false} Projections(r: Run)
    requires Legal(r)
    ensures L.Legal(ConnectionRun(r)) && L.End(ConnectionRun(r)) == End(r).l
    ensures D.Legal(DeliveryRun(r)) && D.End(DeliveryRun(r)) == End(r).d
    ensures Fits(End(r).l, End(r).d)
  {
    match r
    case Start(w) =>
    case Then(before, step) =>
      Projections(before);
      LS.RunsKeepAll(ConnectionRun(before));
      DA.RunsAreWellFormed(DeliveryRun(before));
      match step
      case Connection(a) => ConnectionFollowed(End(before), a);
      case Delivery(b) => DeliveryLeavesConnection(End(before).d, b);
  }

  /** Under (A) a broker that says it is healthy is consuming: the channel of its only consumer is
      open, and every job in the manifest is of that channel. */
  lemma HealthyMeansConsuming(r: Run, grace: bool)
    requires Legal(r) && DS.AllSteps(DeliveryRun(r), DS.NoLateInsert) && L.Healthy(End(r).l, grace)
    ensures var d := End(r).d;
            && d.rabbit.alive && d.phase == D.Serving
            && (forall id <- d.jobs :: d.jobs[id].delivery.channel == d.rabbit.channel)
            && d.rabbit.channel == |End(r).l.readers|
  {
    Projections(r);
    LS.RunsKeepAll(ConnectionRun(r));
    DS.RunsUnderA(DeliveryRun(r));
  }

  /** Under (A) a channel that is gone while the routine waits is noticed: unless the broker is
      shutting down there is a signal to take, or the lost connection's watcher holds its error. */
  lemma LostChannelIsNoticed(r: Run)
    requires Legal(r) && DS.AllSteps(DeliveryRun(r), DS.NoLateInsert)
    requires End(r).l.routine == L.Parked && End(r).l.teardown == L.NotBegun && !End(r).d.rabbit.alive
    ensures var l := End(r).l;
            || l.signals > 0
            || (l.connection.Some? && l.connection.value in l.watchers && l.watchers[l.connection.value] == L.Notified)
  {
    Projections(r);
    DS.RunsUnderA(DeliveryRun(r));
    LS.RunsKeepAll(ConnectionRun(r));
    LS.NoLostWakeUp(ConnectionRun(r));
  }
}
