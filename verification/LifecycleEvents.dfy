/**
  What the history of a connection lifecycle says about its state: where signals come from and where
  they go, who sets which flag, when a close watcher has an error, and which channels may be consumed.
*/
module LifecycleEvents {
  import opened Options
  import opened Runs
  import opened Lifecycle
  import opened LifecycleSafety

  function Bit(b: bool): nat {
    if b then 1 else 0
  }

  // ---------- signals ----------

  /** This step wants to send a signal: a retry, a watcher with an error, the failsafe, a monitor that
      saw a connected broker without an open connection, or a probe that finds one. */
  predicate WantsToSignal(s: State, a: Action) {
    match a
    case StartUp(Retry) => true
    case Other(WatcherFires(_, send)) => send
    case Other(FailsafeActs) => true
    case Other(MonitorActs) =>
      s.monitor.Seen? && s.monitor.connected && (s.monitor.connection == None || s.monitor.connection.value !in s.open)
    case Other(Probe(grace)) =>
      && s.teardown == NotBegun && (s.initialized || !grace)
      && s.connected && s.connection.Some? && s.connection.value !in s.open
    case _ => false
  }

  /** It does if there is room for it. */
  predicate Signals(s: State, a: Action) {
    WantsToSignal(s, a) && s.signals < 20
  }

  ghost predicate SignalsAccounted(s: State, a: Action, s': State) {
    s'.signals == s.signals + Bit(Signals(s, a)) - Bit(a == Connect(TakeSignal))
  }

  lemma SignalStep(s: State, a: Action)
    requires Enabled(s, a)
    ensures SignalsAccounted(s, a, Apply(s, a))
  {
    match a
    case Connect(step) => ConnectSignals(s, step);
    case Channels(step) => ChannelSignals(s, step);
    case StartUp(step) => StartSignals(s, step);
    case Other(step) => OtherSignals(s, step);
  }

  lemma ConnectSignals(s: State, step: ConnectStep)
    requires ConnectCan(s, step)
    ensures SignalsAccounted(s, Connect(step), ConnectStepped(s, step))
  {
  }

  lemma ChannelSignals(s: State, step: ChannelStep)
    requires ChannelCan(s, step)
    ensures SignalsAccounted(s, Channels(step), ChannelStepped(s, step))
  {
  }

  lemma StartSignals(s: State, step: StartStep)
    requires StartCan(s, step)
    ensures SignalsAccounted(s, StartUp(step), StartStepped(s, step))
  {
  }

  lemma OtherSignals(s: State, step: OtherStep)
    requires OtherCan(s, step)
    ensures SignalsAccounted(s, Other(step), OtherStepped(s, step))
  {
  }

  /** With room for it, the health monitor sends exactly one signal if and only if it saw a connected
      broker with no connection, or with one that is not open by now; with a full buffer, none. */
  lemma MonitorSignalsIff(s: State)
    requires OtherCan(s, MonitorActs)
    ensures var signals := OtherStepped(s, MonitorActs).signals;
            && (signals == s.signals || signals == s.signals + 1)
            && (signals == s.signals + 1 <==>
                  && s.signals < 20 && s.monitor.connected
                  && (s.monitor.connection == None || s.monitor.connection.value !in s.open))
  {
    OtherSignals(s, MonitorActs);
  }

  ghost function Sent(r: Run): nat {
    match r
    case Start(_) => 0
    case Then(before, a) => Sent(before) + Bit(Signals(End(before), a))
  }

  ghost function Taken(r: Run): nat {
    match r
    case Start(_) => 0
    case Then(before, a) => Taken(before) + Bit(a == Connect(TakeSignal))
  }

  /** No signal is lost or made up: the first one and those sent for cause have been taken or wait, and
      never more than 20 of them do. */
  lemma {:induction false} SignalsBalance(r: Run)
    requires Legal(r)
    ensures 1 + Sent(r) == Taken(r) + End(r).signals && End(r).signals <= 20
  {
    match r
    case Start(s) =>
    case Then(before, a) =>
      SignalsBalance(before);
      SignalStep(End(before), a);
  }

  // ---------- close watchers ----------

  ghost predicate WasLost(r: Run, c: nat) {
    r.Then? && (WasLost(r.before, c) || r.action == Other(LoseConnection(c)))
  }

  predicate HasError(s: State, c: nat) {
    c in s.watchers && s.watchers[c] == Notified
  }

  lemma ErrorStep(s: State, a: Action, c: nat)
    requires Enabled(s, a) && HasError(Apply(s, a), c)
    ensures HasError(s, c) || a == Other(LoseConnection(c))
  {
    match a
    case Connect(step) => ConnectError(s, step, c);
    case Channels(step) => ChannelError(s, step, c);
    case StartUp(step) => StartError(s, step, c);
    case Other(step) => OtherError(s, step, c);
  }

  lemma ConnectError(s: State, step: ConnectStep, c: nat)
    requires ConnectCan(s, step) && HasError(ConnectStepped(s, step), c)
    ensures HasError(s, c)
  {
  }

  lemma ChannelError(s: State, step: ChannelStep, c: nat)
    requires ChannelCan(s, step) && HasError(ChannelStepped(s, step), c)
    ensures HasError(s, c)
  {
  }

  lemma StartError(s: State, step: StartStep, c: nat)
    requires StartCan(s, step) && HasError(StartStepped(s, step), c)
    ensures HasError(s, c)
  {
  }

  lemma OtherError(s: State, step: OtherStep, c: nat)
    requires OtherCan(s, step) && HasError(OtherStepped(s, step), c)
    ensures HasError(s, c) || step == LoseConnection(c)
  {
  }

  /** A watcher only has an error if its connection was lost: a reset or a teardown does not wake the
      routine. */
  lemma {:induction false} ErrorMeansLost(r: Run, c: nat)
    requires Legal(r) && HasError(End(r), c)
    ensures WasLost(r, c)
  {
    match r
    case Then(before, a) =>
      ErrorStep(End(before), a, c);
      if a != Other(LoseConnection(c)) {
        ErrorMeansLost(before, c);
      }
  }

  /** A watcher that waits has something to wait for. */
  ghost predicate WaitsForOpen(s: State) {
    forall c <- s.watchers :: s.watchers[c] == Watching ==> c in s.open
  }

  lemma ConnectKeepsWaits(s: State, step: ConnectStep)
    requires WaitsForOpen(s) && ConnectCan(s, step)
    ensures WaitsForOpen(ConnectStepped(s, step))
  {
  }

  lemma ChannelKeepsWaits(s: State, step: ChannelStep)
    requires WaitsForOpen(s) && ChannelCan(s, step)
    ensures WaitsForOpen(ChannelStepped(s, step))
  {
  }

  lemma StartKeepsWaits(s: State, step: StartStep)
    requires WaitsForOpen(s) && StartCan(s, step)
    ensures WaitsForOpen(StartStepped(s, step))
  {
  }

  lemma OtherKeepsWaits(s: State, step: OtherStep)
    requires WaitsForOpen(s) && OtherCan(s, step)
    ensures WaitsForOpen(OtherStepped(s, step))
  {
  }

  /** No close watcher is left waiting for a connection that is gone. */
  lemma {:induction false} WatchersDoNotLinger(r: Run)
    requires Legal(r)
    ensures WaitsForOpen(End(r))
  {
    match r
    case Start(s) =>
    case Then(before, a) =>
      WatchersDoNotLinger(before);
      match a
      case Connect(step) => ConnectKeepsWaits(End(before), step);
      case Channels(step) => ChannelKeepsWaits(End(before), step);
      case StartUp(step) => StartKeepsWaits(End(before), step);
      case Other(step) => OtherKeepsWaits(End(before), step);
  }

  // ---------- flags ----------

  /** The latest step of the run that is one of `sets` or `clears` is one of `sets`. */
  ghost predicate LatestIs(r: Run, sets: set<Action>, clears: set<Action>) {
    r.Then? && (r.action in sets || (r.action !in clears && LatestIs(r.before, sets, clears)))
  }

  const RESET: Action := Connect(ResetAll)
  const TORN_DOWN: Action := Other(FinishTeardown)
  const FINISHED: Action := StartUp(Finish)
  const CONNECTED: Action := StartUp(MarkConnected)
  const CONSUMING: Action := StartUp(StartConsumer(true))

  ghost predicate FlagsFollow(s: State, a: Action, s': State) {
    && (s'.initialized <==> a == FINISHED || (a != RESET && s.initialized))
    && (s'.connected <==> a == CONNECTED || (a !in {RESET, TORN_DOWN} && s.connected))
    && (s'.running <==> a == CONSUMING || (a !in {RESET, TORN_DOWN} && s.running))
  }

  lemma FlagStep(s: State, a: Action)
    requires Enabled(s, a)
    ensures FlagsFollow(s, a, Apply(s, a))
  {
    match a
    case Connect(step) => ConnectFlags(s, step);
    case Channels(step) => ChannelFlags(s, step);
    case StartUp(step) => StartFlags(s, step);
    case Other(step) => OtherFlags(s, step);
  }

  lemma ConnectFlags(s: State, step: ConnectStep)
    requires ConnectCan(s, step)
    ensures FlagsFollow(s, Connect(step), ConnectStepped(s, step))
  {
  }

  lemma ChannelFlags(s: State, step: ChannelStep)
    requires ChannelCan(s, step)
    ensures FlagsFollow(s, Channels(step), ChannelStepped(s, step))
  {
  }

  lemma StartFlags(s: State, step: StartStep)
    requires StartCan(s, step)
    ensures FlagsFollow(s, StartUp(step), StartStepped(s, step))
  {
  }

  lemma OtherFlags(s: State, step: OtherStep)
    requires OtherCan(s, step)
    ensures FlagsFollow(s, Other(step), OtherStepped(s, step))
  {
  }

  /** Each flag says which of its events came last; a teardown leaves fullyInitialized alone. */
  lemma {:induction false} FlagsTellHistory(r: Run)
    requires Legal(r)
    ensures End(r).initialized <==> LatestIs(r, {FINISHED}, {RESET})
    ensures End(r).connected <==> LatestIs(r, {CONNECTED}, {RESET, TORN_DOWN})
    ensures End(r).running <==> LatestIs(r, {CONSUMING}, {RESET, TORN_DOWN})
  {
    match r
    case Start(s) =>
    case Then(before, a) =>
      FlagsTellHistory(before);
      FlagStep(End(before), a);
  }

  // ---------- prefetch ----------

  /** Whatever is or can be consumed has its prefetch count set. */
  ghost predicate OnlyLimited(s: State) {
    && (forall ch <- s.readers :: ch in s.limited)
    && (s.consume.Some? ==> s.consume.value in s.limited)
    && (s.routine.HasConsume? || s.routine.HasBoth? ==> s.routine.consume in s.limited)
  }

  lemma OnlyLimitedStep(s: State, a: Action)
    requires OnlyLimited(s) && Enabled(s, a)
    ensures OnlyLimited(Apply(s, a))
  {
    match a
    case Connect(step) => ConnectKeepsLimited(s, step);
    case Channels(step) => ChannelKeepsLimited(s, step);
    case StartUp(step) => StartKeepsLimited(s, step);
    case Other(step) => OtherKeepsLimited(s, step);
  }

  lemma ConnectKeepsLimited(s: State, step: ConnectStep)
    requires OnlyLimited(s) && ConnectCan(s, step)
    ensures OnlyLimited(ConnectStepped(s, step))
  {
  }

  lemma ChannelKeepsLimited(s: State, step: ChannelStep)
    requires OnlyLimited(s) && ChannelCan(s, step)
    ensures OnlyLimited(ChannelStepped(s, step))
  {
  }

  lemma StartKeepsLimited(s: State, step: StartStep)
    requires OnlyLimited(s) && StartCan(s, step)
    ensures OnlyLimited(StartStepped(s, step))
  {
  }

  lemma OtherKeepsLimited(s: State, step: OtherStep)
    requires OnlyLimited(s) && OtherCan(s, step)
    ensures OnlyLimited(OtherStepped(s, step))
  {
    if Disruptive(step) {
      ReleaseFacts(s);
    } else {
      SignallersOnly(s, step);
    }
  }

  ghost predicate PrefetchWasSet(r: Run, ch: Channel) {
    && r.Then?
    && (|| PrefetchWasSet(r.before, ch)
        || (r.action == Channels(SetQos) && End(r.before).routine.NeedsQos? && End(r.before).routine.consume == ch))
  }

  ghost predicate LimitsFollow(s: State, a: Action, s': State) {
    s'.limited == s.limited + if a == Channels(SetQos) && s.routine.NeedsQos? then {s.routine.consume} else {}
  }

  lemma LimitStep(s: State, a: Action)
    requires Enabled(s, a)
    ensures LimitsFollow(s, a, Apply(s, a))
  {
    match a
    case Connect(step) => ConnectLimits(s, step);
    case Channels(step) => ChannelLimits(s, step);
    case StartUp(step) => StartLimits(s, step);
    case Other(step) => OtherLimits(s, step);
  }

  lemma ConnectLimits(s: State, step: ConnectStep)
    requires ConnectCan(s, step)
    ensures LimitsFollow(s, Connect(step), ConnectStepped(s, step))
  {
  }

  lemma ChannelLimits(s: State, step: ChannelStep)
    requires ChannelCan(s, step)
    ensures LimitsFollow(s, Channels(step), ChannelStepped(s, step))
  {
  }

  lemma StartLimits(s: State, step: StartStep)
    requires StartCan(s, step)
    ensures LimitsFollow(s, StartUp(step), StartStepped(s, step))
  {
  }

  lemma OtherLimits(s: State, step: OtherStep)
    requires OtherCan(s, step)
    ensures LimitsFollow(s, Other(step), OtherStepped(s, step))
  {
  }

  /** No consumer ever reads a channel whose prefetch count was not set before. */
  lemma {:induction false} ConsumersAreLimited(r: Run, ch: Channel)
    requires Legal(r)
    ensures OnlyLimited(End(r)) && (ch in End(r).limited <==> PrefetchWasSet(r, ch))
    ensures ch in End(r).readers ==> PrefetchWasSet(r, ch)
  {
    match r
    case Start(s) =>
    case Then(before, a) =>
      ConsumersAreLimited(before, ch);
      OnlyLimitedStep(End(before), a);
      LimitStep(End(before), a);
  }

  // ---------- failed attempts ----------

  predicate Fails(a: Action) {
    a == Connect(DialFails) || a == Channels(OpenConsumeFails) || a == Channels(QosFails) || a == Channels(OpenPublishFails)
  }

  /** Dials and attempts at the channels that failed during a run. */
  ghost function Failures(r: Run): nat {
    match r
    case Start(_) => 0
    case Then(before, a) => Failures(before) + Bit(Fails(a))
  }
}
