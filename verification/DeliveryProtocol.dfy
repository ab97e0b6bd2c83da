/**
  The life of a delivery inside AMPS as a step system.

  A step is what one actor does between two points where others can interfere.  Critical sections
  that touch only the job manifest are single steps.  The timeout sweep also settles deliveries
  while it holds the manifest lock, so it is split into several steps and the lock is explicit.
  A run is any interleaving of the steps of the consumers, the HTTP checkouts, the sweep, the
  reconnect routine and RabbitMQ.
*/
module DeliveryProtocol {
  import opened Options
  import opened RabbitMQ
  import opened Runs

  datatype Job = Job(created: nat, id: string, delivery: Delivery)

  /** Where a channel's consumer goroutine is. */
  datatype Stage =
    | Idle                          // waiting for a delivery
    | Received(d: Delivery)         // handler entered, manifest not yet looked at
    | Duplicate(d: Delivery)        // found its ID taken, has not discarded yet
    | Triggering(d: Delivery)       // recorded, calling the workload
    | TriggerFailed(d: Delivery)    // the call failed, manifest not yet looked at again
    | Withdrawn(d: Delivery)        // deleted the entry, has not requeued yet
    | Exited

  /** A consumer and the deliveries its channel holds unread.  Any of them may be read next. */
  datatype Consumer = Consumer(unread: set<Delivery>, stage: Stage)

  /** What a workload asks for: POST /acknowledge or POST /reject. */
  datatype Request = Acknowledge(reschedule: bool) | Reject(reschedule: bool)

  /** A checkout handler that has taken its job and not settled the delivery yet. */
  datatype Checkout = Checkout(d: Delivery, request: Request)

  /** The manifest lock: free between steps, or held by a sweep with `todo` entries to visit, one
      of which may be nacked and not deleted yet. */
  datatype Lock = Free | Sweeping(todo: set<string>, nacked: Option<string>)

  /** How far the reconnect routine is: consuming; old channel closed; manifest cleaned too. */
  datatype Phase = Serving | Closed | Cleaned

  datatype State = State(
    jobTimeout: int,
    rabbit: Rabbit,
    phase: Phase,
    consumers: map<nat, Consumer>,    // one per channel ever opened
    jobs: map<string, Job>,
    inserted: nat,                    // amps_messages_inserted_total
    deleted: nat,                     // amps_messages_deleted_total
    lock: Lock,
    checkouts: map<nat, Checkout>,    // HTTP handlers between unlock and settle
    now: nat,
    sweepStart: nat                   // when the latest sweep took the lock, or the process started
  )

  predicate Init(s: State) {
    && s.rabbit == NewBroker(s.rabbit.prefetch)
    && s.phase == Closed && s.consumers == map[]
    && s.jobs == map[] && s.inserted == s.deleted == 0 && s.lock == Free
    && s.checkouts == map[] && s.sweepStart == s.now
  }

  datatype BrokerStep =               // RabbitMQ, the network and the clock
    | Publish(m: Msg, body: Body) | Deliver(m: Msg) | LoseConnection | Tick(dt: nat)

  datatype ReconnectStep = Reset | Cleanup | Open

  datatype ConsumerStep =
    | Receive(d: Delivery) | DropMalformed | Register | DropDuplicate
    | TriggerReturns(ok: bool) | Withdraw | RequeueWithdrawn | Exit

  datatype CheckoutStep = Take(id: string, request: Request) | Finish

  datatype SweepStep = Begin | Visit(id: string) | Delete | Release

  /** A step of one of the actors: the consumer of channel `ch`, the checkout handler `h`, ... */
  datatype Action =
    | Broker(b: BrokerStep)
    | Reconnect(r: ReconnectStep)
    | Consume(ch: nat, c: ConsumerStep)
    | Http(h: nat, p: CheckoutStep)
    | Sweep(w: SweepStep)

  function OutcomeOf(request: Request): Outcome {
    match request
    case Acknowledge(reschedule) => if reschedule then Nack(true) else Ack
    case Reject(reschedule) => Nack(reschedule)
  }

  function StageOf(s: State, ch: nat): Stage {
    if ch in s.consumers then s.consumers[ch].stage else Exited
  }

  function UnreadOf(s: State, ch: nat): set<Delivery> {
    if ch in s.consumers then s.consumers[ch].unread else {}
  }

  function SetStage(s: State, ch: nat, stage: Stage): State
    requires ch in s.consumers
  {
    s.(consumers := s.consumers[ch := s.consumers[ch].(stage := stage)])
  }

  function BodyOf(s: State, d: Delivery): Body {
    if d.msg in s.rabbit.bodies then s.rabbit.bodies[d.msg] else Malformed
  }

  /** The event ID a handler works under; only asked for bodies that parse. */
  function IdOf(s: State, d: Delivery): string {
    match BodyOf(s, d)
    case Event(id) => id
    case Malformed => ""
  }

  function Settled(s: State, d: Delivery, outcome: Outcome): State {
    s.(rabbit := Settle(s.rabbit, d, outcome))
  }

  function Inserted(s: State, id: string, d: Delivery): State {
    s.(jobs := s.jobs[id := Job(s.now, id, d)], inserted := s.inserted + 1)
  }

  function Removed(s: State, id: string): State {
    s.(jobs := s.jobs - {id}, deleted := s.deleted + 1)
  }

  predicate Expired(s: State, id: string)
    requires id in s.jobs
  {
    s.now - s.jobs[id].created > s.jobTimeout
  }

  predicate BrokerCan(s: State, b: BrokerStep) {
    match b
    case Publish(m, _) => m !in s.rabbit.bodies
    case Deliver(m) => CanDeliver(s.rabbit, m) && s.rabbit.channel in s.consumers
    case LoseConnection => s.rabbit.alive
    case Tick(_) => true
  }

  function BrokerStepped(s: State, b: BrokerStep): State
    requires BrokerCan(s, b)
  {
    match b
    case Publish(m, body) => s.(rabbit := RabbitMQ.Publish(s.rabbit, m, body))
    case Deliver(m) =>
      var ch := s.rabbit.channel;
      var c := s.consumers[ch];
      s.(rabbit := RabbitMQ.Deliver(s.rabbit, m),
      consumers := s.consumers[ch := c.(unread := c.unread + {NextDelivery(s.rabbit, m)})])
    case LoseConnection => s.(rabbit := CloseChannel(s.rabbit))
    case Tick(dt) => s.(now := s.now + dt)
  }

  predicate ReconnectCan(s: State, r: ReconnectStep) {
    match r
    case Reset => s.phase != Closed
    case Cleanup => s.phase == Closed && s.lock == Free
    case Open => s.phase == Cleaned && !s.rabbit.alive
  }

  function ReconnectStepped(s: State, r: ReconnectStep): State
    requires ReconnectCan(s, r)
  {
    match r
    case Reset => s.(rabbit := CloseChannel(s.rabbit), phase := Closed)
    case Cleanup => s.(jobs := map[], phase := Cleaned)
    case Open =>
      s.(rabbit := OpenChannel(s.rabbit), phase := Serving,
      consumers := s.consumers[s.rabbit.channel + 1 := Consumer({}, Idle)])
  }

  predicate ConsumerCan(s: State, ch: nat, c: ConsumerStep) {
    var stage := StageOf(s, ch);
    match c
    case Receive(d) => stage == Idle && d in UnreadOf(s, ch)
    case DropMalformed => stage.Received? && BodyOf(s, stage.d) == Malformed
    case Register => stage.Received? && BodyOf(s, stage.d).Event? && s.lock == Free
    case DropDuplicate => stage.Duplicate?
    case TriggerReturns(_) => stage.Triggering?
    case Withdraw => stage.TriggerFailed? && s.lock == Free
    case RequeueWithdrawn => stage.Withdrawn?
    case Exit => stage == Idle
  }

  function ConsumerStepped(s: State, ch: nat, c: ConsumerStep): State
    requires ConsumerCan(s, ch, c)
  {
    var stage := StageOf(s, ch);
    match c
    case Receive(d) =>
      s.(consumers := s.consumers[ch := Consumer(s.consumers[ch].unread - {d}, Received(d))])
    case DropMalformed => SetStage(Settled(s, stage.d, Nack(false)), ch, Idle)
    case Register =>
      var id := IdOf(s, stage.d);
      if id in s.jobs then SetStage(s, ch, Duplicate(stage.d))
      else SetStage(Inserted(s, id, stage.d), ch, Triggering(stage.d))
    case DropDuplicate => SetStage(Settled(s, stage.d, Nack(false)), ch, Idle)
    case TriggerReturns(ok) => SetStage(s, ch, if ok then Idle else TriggerFailed(stage.d))
    case Withdraw =>
      var id := IdOf(s, stage.d);
      if id in s.jobs then SetStage(Removed(s, id), ch, Withdrawn(stage.d)) else SetStage(s, ch, Idle)
    case RequeueWithdrawn => SetStage(Settled(s, stage.d, Nack(true)), ch, Idle)
    case Exit => SetStage(s, ch, Exited)
  }

  predicate CheckoutCan(s: State, h: nat, p: CheckoutStep) {
    match p
    case Take(_, _) => h !in s.checkouts && s.lock == Free
    case Finish => h in s.checkouts
  }

  function CheckoutStepped(s: State, h: nat, p: CheckoutStep): State
    requires CheckoutCan(s, h, p)
  {
    match p
    case Take(id, request) =>
      if id in s.jobs then
        Removed(s, id).(checkouts := s.checkouts[h := Checkout(s.jobs[id].delivery, request)])
      else s
    case Finish =>
      var c := s.checkouts[h];
      Settled(s, c.d, OutcomeOf(c.request)).(checkouts := s.checkouts - {h})
  }

  predicate SweepCan(s: State, w: SweepStep) {
    match w
    case Begin => s.lock == Free && s.jobTimeout > 0
    case Visit(id) => s.lock.Sweeping? && s.lock.nacked == None && id in s.lock.todo && id in s.jobs
    case Delete => s.lock.Sweeping? && s.lock.nacked.Some?
    case Release => s.lock == Sweeping({}, None)
  }

  function SweepStepped(s: State, w: SweepStep): State
    requires SweepCan(s, w)
  {
    match w
    case Begin => s.(lock := Sweeping(s.jobs.Keys, None), sweepStart := s.now)
    case Visit(id) =>
      if Expired(s, id) then
        Settled(s, s.jobs[id].delivery, Nack(true)).(lock := s.lock.(nacked := Some(id)))
      else s.(lock := s.lock.(todo := s.lock.todo - {id}))
    case Delete =>
      var id := s.lock.nacked.value;
      Removed(s, id).(lock := Sweeping(s.lock.todo - {id}, None))
    case Release => s.(lock := Free)
  }

  predicate Enabled(s: State, a: Action) {
    match a
    case Broker(b) => BrokerCan(s, b)
    case Reconnect(r) => ReconnectCan(s, r)
    case Consume(ch, c) => ConsumerCan(s, ch, c)
    case Http(h, p) => CheckoutCan(s, h, p)
    case Sweep(w) => SweepCan(s, w)
  }

  function Apply(s: State, a: Action): State
    requires Enabled(s, a)
  {
    match a
    case Broker(b) => BrokerStepped(s, b)
    case Reconnect(r) => ReconnectStepped(s, r)
    case Consume(ch, c) => ConsumerStepped(s, ch, c)
    case Http(h, p) => CheckoutStepped(s, h, p)
    case Sweep(w) => SweepStepped(s, w)
  }

  // ---------- runs ----------

  type Run = History<State, Action>

  /** The run starts properly and every step was enabled where it was taken. */
  predicate Legal(r: Run) {
    match r
    case Start(s) => Init(s)
    case Then(before, a) => Legal(before) && Enabled(End(before), a)
  }

  /** The state a run reaches. */
  function End(r: Run): State {
    match r
    case Start(s) => s
    case Then(before, a) => if Enabled(End(before), a) then Apply(End(before), a) else End(before)
  }

  // ---------- the configuration ----------

  /** JobTimeout and MaxConcurrency. */
  predicate SameConfiguration(s: State, s': State) {
    s'.jobTimeout == s.jobTimeout && s'.rabbit.prefetch == s.rabbit.prefetch
  }

  lemma ConfigurationStep(s: State, a: Action)
    requires Enabled(s, a)
    ensures SameConfiguration(s, Apply(s, a))
  {
    match a
    case Broker(b) =>
    case Reconnect(r) =>
    case Consume(ch, c) => ConsumerKeepsConfiguration(s, ch, c);
    case Http(h, p) => HttpKeepsConfiguration(s, h, p);
    case Sweep(w) => SweepKeepsConfiguration(s, w);
  }

  lemma ConsumerKeepsConfiguration(s: State, ch: nat, c: ConsumerStep)
    requires ConsumerCan(s, ch, c)
    ensures SameConfiguration(s, ConsumerStepped(s, ch, c))
  {
  }

  lemma HttpKeepsConfiguration(s: State, h: nat, p: CheckoutStep)
    requires CheckoutCan(s, h, p)
    ensures SameConfiguration(s, CheckoutStepped(s, h, p))
  {
  }

  lemma SweepKeepsConfiguration(s: State, w: SweepStep)
    requires SweepCan(s, w)
    ensures SameConfiguration(s, SweepStepped(s, w))
  {
  }

  /** No step changes what the process was started with. */
  lemma {:induction false} ConfigurationIsFixed(r: Run)
    requires Legal(r)
    ensures SameConfiguration(Beginning(r), End(r))
  {
    match r
    case Start(s) =>
    case Then(before, a) =>
      ConfigurationIsFixed(before);
      ConfigurationStep(End(before), a);
  }
}
