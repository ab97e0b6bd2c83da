/**
  What holds in every state the connection lifecycle can reach, whatever the network does and
  whenever the signals arrive.
*/
module LifecycleSafety {
  import opened Options
  import opened Lifecycle

  // ---------- invariants ----------

  predicate Disconnected(r: Routine) {
    r == Cleaning || r.AtDial? || r.Dialing? || r.BackingOff?
  }

  /** The stages between a reset and the new channels being stored. */
  predicate Early(r: Routine) {
    || Disconnected(r) || r.Dialed? || r.Installed? || r.Checking? || r.Reading?
    || r.Opening? || r.NeedsQos? || r.HasConsume? || r.HasBoth?
  }

  /** What the routine holds in local variables belongs to the latest connection. */
  predicate OnLatest(s: State) {
    match s.routine
    case Dialed(c) => c == s.dialed
    case Installed(c) => c == s.dialed
    case Opening(_, c) => c == s.dialed
    case NeedsQos(_, ch) => ch.conn == s.dialed
    case HasConsume(_, ch) => ch.conn == s.dialed
    case HasBoth(ch, pub) => ch.conn == pub.conn == s.dialed
    case _ => true
  }

  /** Only the latest connection is ever open or stored, and its channels with it. */
  ghost predicate Latest(s: State) {
    && s.signals <= CAPACITY
    && s.open <= {s.dialed}
    && (s.connection.Some? ==> s.connection.value == s.dialed)
    && (s.consume.Some? ==> s.consume.value.conn == s.dialed)
    && (s.publish.Some? ==> s.publish.value.conn == s.dialed)
    && OnLatest(s)
    && (s.connection == None ==> s.routine.Dialed? || s.open == {})
    && (Disconnected(s.routine) || s.routine.Dialed? ==> s.connection == None)
    && (Early(s.routine) ==> s.consume == None && s.publish == None && !s.running && !s.connected && !s.initialized)
  }

  /** Channels only the routine knows. */
  function Private(r: Routine): set<Channel> {
    match r
    case NeedsQos(_, ch) => {ch}
    case HasConsume(_, ch) => {ch}
    case HasBoth(ch, pub) => {ch, pub}
    case _ => {}
  }

  function Known(ch: Option<Channel>): set<Channel> {
    if ch.Some? then {ch.value} else {}
  }

  function AllKnown(s: State): set<Channel> {
    Known(s.consume) + Known(s.publish) + Private(s.routine)
  }

  /** What AMPS has opened and not closed is exactly what it still knows, and channel numbers are used
      once. */
  ghost predicate NoLeak(s: State) {
    && s.unclosed == AllKnown(s)
    && (forall ch <- AllKnown(s) :: ch.n <= s.created)
    && (s.consume.Some? <==> s.publish.Some?)
    && (s.consume.Some? ==> s.consume.value.n < s.publish.value.n)
    && (s.routine.HasBoth? ==> s.routine.consume.n < s.routine.publish.n)
  }

  /** At most one consumer per channel. */
  ghost predicate Readers(s: State) {
    && (forall ch <- s.readers :: s.readers[ch] == 1 && ch.n <= s.created && ch !in Private(s.routine))
    && (s.consume.Some? && !s.running ==> s.consume.value !in s.readers)
    && (s.routine == ChannelsStored || s.routine == Starting ==> !s.running)
  }

  ghost predicate Inv(s: State) {
    Latest(s) && NoLeak(s) && Readers(s)
  }

  lemma ReleaseFacts(s: State)
    ensures var t := Release(s);
            && t.connection == None && t.consume == None && t.publish == None
            && t.open == (if s.connection.Some? then s.open - {s.connection.value} else s.open)
            && t.unclosed == s.unclosed - Known(s.consume) - Known(s.publish)
            && t.(connection := None, consume := None, publish := None, open := {}, unclosed := {}, watchers := map[])
               == s.(connection := None, consume := None, publish := None, open := {}, unclosed := {}, watchers := map[])
  {
  }

  lemma ConnectKeepsLatest(s: State, step: ConnectStep)
    requires Latest(s) && ConnectCan(s, step)
    ensures Latest(ConnectStepped(s, step))
  {
    if step == ResetAll {
      ResetKeepsLatest(s);
    }
  }

  lemma ResetKeepsLatest(s: State)
    requires Latest(s) && ConnectCan(s, ResetAll)
    ensures Latest(ConnectStepped(s, ResetAll))
  {
    ReleaseFacts(s.(running := false, connected := false, initialized := false));
  }

  lemma ConnectKeepsNoLeak(s: State, step: ConnectStep)
    requires Latest(s) && NoLeak(s) && ConnectCan(s, step)
    ensures NoLeak(ConnectStepped(s, step))
  {
    if step == ResetAll {
      ResetKeepsNoLeak(s);
    }
  }

  lemma ResetKeepsNoLeak(s: State)
    requires Latest(s) && NoLeak(s) && ConnectCan(s, ResetAll)
    ensures NoLeak(ConnectStepped(s, ResetAll))
  {
    ReleaseFacts(s.(running := false, connected := false, initialized := false));
  }

  lemma ConnectKeepsReaders(s: State, step: ConnectStep)
    requires Inv(s) && ConnectCan(s, step)
    ensures Readers(ConnectStepped(s, step))
  {
    if step == ResetAll {
      ResetKeepsReaders(s);
    }
  }

  lemma ResetKeepsReaders(s: State)
    requires Inv(s) && ConnectCan(s, ResetAll)
    ensures Readers(ConnectStepped(s, ResetAll))
  {
    ReleaseFacts(s.(running := false, connected := false, initialized := false));
  }

  lemma ChannelKeepsLatest(s: State, step: ChannelStep)
    requires Latest(s) && ChannelCan(s, step)
    ensures Latest(ChannelStepped(s, step))
  {
  }

  lemma ChannelKeepsNoLeak(s: State, step: ChannelStep)
    requires Latest(s) && NoLeak(s) && ChannelCan(s, step)
    ensures NoLeak(ChannelStepped(s, step))
  {
  }

  lemma ChannelKeepsReaders(s: State, step: ChannelStep)
    requires Inv(s) && ChannelCan(s, step)
    ensures Readers(ChannelStepped(s, step))
  {
  }

  /** The bookkeeping of the signallers does not matter here. */
  lemma SignallersKeepInv(s: State, s': State)
    requires Inv(s) && s'.signals <= CAPACITY
    requires s' == s.(signals := s'.signals, watchers := s'.watchers, monitor := s'.monitor,
                      failsafe := s'.failsafe, teardown := s'.teardown)
    ensures Inv(s')
  {
  }

  lemma StartConsumerKeepsInv(s: State, ok: bool)
    requires Inv(s) && StartCan(s, StartConsumer(ok))
    ensures Inv(StartStepped(s, StartConsumer(ok)))
  {
  }

  /** A routine stage that needs nothing from the rest of the state. */
  predicate Plain(r: Routine) {
    r == Parked || r == Quit || r == Started || r == Failed
  }

  lemma PlainMoveKeepsInv(s: State, r: Routine, connected: bool, initialized: bool)
    requires Inv(s) && !Early(s.routine) && (Plain(r) || (r == Starting && s.routine == ChannelsStored))
    ensures Inv(At(s.(connected := connected, initialized := initialized), r))
  {
  }

  lemma StartKeepsInv(s: State, step: StartStep)
    requires Inv(s) && StartCan(s, step)
    ensures Inv(StartStepped(s, step))
  {
    match step
    case MarkConnected => PlainMoveKeepsInv(s, Starting, true, s.initialized);
    case StartConsumer(ok) => StartConsumerKeepsInv(s, ok);
    case Finish => PlainMoveKeepsInv(s, Parked, s.connected, true);
    case Retry =>
      SignallersKeepInv(s, Signal(s));
      PlainMoveKeepsInv(Signal(s), Parked, s.connected, s.initialized);
    case GiveUp => PlainMoveKeepsInv(s, Quit, s.connected, s.initialized);
  }

  lemma LossKeepsInv(s: State, c: nat)
    requires Inv(s) && c in s.open
    ensures Inv(OtherStepped(s, LoseConnection(c)))
  {
  }

  lemma TeardownKeepsInv(s: State)
    requires Inv(s) && s.teardown == Cancelled
    ensures Inv(OtherStepped(s, FinishTeardown))
  {
    ReleaseFacts(s);
  }

  predicate Disruptive(step: OtherStep) {
    step.LoseConnection? || step.FinishTeardown?
  }

  ghost predicate OnlySignalled(s: State, s': State) {
    && s.signals <= s'.signals && (s.signals <= CAPACITY ==> s'.signals <= CAPACITY)
    && s' == s.(signals := s'.signals, watchers := s'.watchers, monitor := s'.monitor,
                failsafe := s'.failsafe, teardown := s'.teardown)
  }

  lemma WatchersOnlySignal(s: State, step: OtherStep)
    requires OtherCan(s, step) && (step.WatcherFires? || step.WatcherStops?)
    ensures OnlySignalled(s, OtherStepped(s, step)) && OtherStepped(s, step).teardown == s.teardown
  {
  }

  /** Everyone who is not disruptive only touches what signals pass through. */
  lemma SignallersOnly(s: State, step: OtherStep)
    requires OtherCan(s, step) && !Disruptive(step)
    ensures OnlySignalled(s, OtherStepped(s, step))
    ensures OtherStepped(s, step).teardown == if step == Cancel then Cancelled else s.teardown
  {
    if step.WatcherFires? || step.WatcherStops? {
      WatchersOnlySignal(s, step);
    }
  }

  lemma OtherKeepsInv(s: State, step: OtherStep)
    requires Inv(s) && OtherCan(s, step)
    ensures Inv(OtherStepped(s, step))
  {
    match step
    case LoseConnection(c) => LossKeepsInv(s, c);
    case FinishTeardown => TeardownKeepsInv(s);
    case _ =>
      SignallersOnly(s, step);
      SignallersKeepInv(s, OtherStepped(s, step));
  }

  lemma InvStep(s: State, a: Action)
    requires Inv(s) && Enabled(s, a)
    ensures Inv(Apply(s, a))
  {
    match a
    case Connect(step) => ConnectKeepsLatest(s, step); ConnectKeepsNoLeak(s, step); ConnectKeepsReaders(s, step);
    case Channels(step) => ChannelKeepsLatest(s, step); ChannelKeepsNoLeak(s, step); ChannelKeepsReaders(s, step);
    case StartUp(step) => StartKeepsInv(s, step);
    case Other(step) => OtherKeepsInv(s, step);
  }

  // ---------- flags and wake-ups ----------

  /** Until a teardown finishes, the flags tell the truth about what is there. */
  predicate Coherent(s: State) {
    s.teardown != Finished ==>
      && (s.initialized ==> s.running && s.connected)
      && (s.running ==> s.connected)
      && (s.connected || s.routine == ChannelsStored ==> s.connection.Some? && s.consume.Some? && s.publish.Some?)
      && (s.routine == Starting ==> s.connected)
      && (s.routine == Started ==> s.running)
      && (s.routine == Failed ==> !s.initialized)
      && (!Early(s.routine) && s.routine != Parked && s.routine != Resetting && s.routine != Quit ==> !s.initialized)
      && (s.connection == None ==>
            Disconnected(s.routine) || s.routine.Dialed? || s.routine == Parked || s.routine == Resetting || s.routine == Quit)
  }

  /** The routine only waits if there is nothing to do or a signal to be taken. */
  predicate NeverHalfBuilt(s: State) {
    s.routine == Parked ==> s.initialized || s.signals > 0
  }

  /** Whoever stored a connection watches it, and a watcher of an open connection is waiting. */
  predicate Watched(s: State) {
    s.teardown == NotBegun && s.connection.Some? && !s.routine.Installed? ==>
      var c := s.connection.value;
      && c in s.watchers
      && (c in s.open ==> s.watchers[c] == Watching)
  }

  /** The routine is going to find out about a lost connection by itself. */
  predicate WillNotice(r: Routine) {
    r == Resetting || r.Checking? || r.Reading? || r == Failed
  }

  /** The loss of the stored connection is signalled, about to be signalled, or will be noticed. */
  predicate LossPending(s: State) {
    s.teardown == NotBegun && s.connection.Some? && !s.routine.Installed? && IsClosed(s, s.connection.value) ==>
      || s.signals > 0
      || (s.connection.value in s.watchers && s.watchers[s.connection.value] == Notified)
      || WillNotice(s.routine)
  }

  predicate Awake(s: State) {
    NeverHalfBuilt(s) && Watched(s) && LossPending(s)
  }

  lemma ConnectKeepsCoherent(s: State, step: ConnectStep)
    requires Inv(s) && Coherent(s) && ConnectCan(s, step)
    ensures Coherent(ConnectStepped(s, step))
  {
  }

  lemma ChannelKeepsCoherent(s: State, step: ChannelStep)
    requires Inv(s) && Coherent(s) && ChannelCan(s, step)
    ensures Coherent(ChannelStepped(s, step))
  {
  }

  lemma StartKeepsCoherent(s: State, step: StartStep)
    requires Inv(s) && Coherent(s) && StartCan(s, step)
    ensures Coherent(StartStepped(s, step))
  {
  }

  lemma SignallersKeepCoherent(s: State, s': State)
    requires Coherent(s) && (s'.teardown == Finished <==> s.teardown == Finished)
    requires s' == s.(signals := s'.signals, watchers := s'.watchers, monitor := s'.monitor,
                      failsafe := s'.failsafe, teardown := s'.teardown)
    ensures Coherent(s')
  {
  }

  lemma OtherKeepsCoherent(s: State, step: OtherStep)
    requires Inv(s) && Coherent(s) && OtherCan(s, step)
    ensures Coherent(OtherStepped(s, step))
  {
    if !Disruptive(step) {
      SignallersOnly(s, step);
      SignallersKeepCoherent(s, OtherStepped(s, step));
    }
  }

  lemma ConnectKeepsAwake(s: State, step: ConnectStep)
    requires Latest(s) && Awake(s) && ConnectCan(s, step)
    ensures Awake(ConnectStepped(s, step))
  {
  }

  lemma ChannelKeepsAwake(s: State, step: ChannelStep)
    requires Latest(s) && Awake(s) && ChannelCan(s, step)
    ensures Awake(ChannelStepped(s, step))
  {
  }

  lemma StartKeepsAwake(s: State, step: StartStep)
    requires Latest(s) && Awake(s) && StartCan(s, step)
    ensures Awake(StartStepped(s, step))
  {
    if step.StartConsumer? {
      ConsumerKeepsAwake(s, step.ok);
    }
  }

  lemma ConsumerKeepsAwake(s: State, ok: bool)
    requires Latest(s) && Awake(s) && StartCan(s, StartConsumer(ok))
    ensures Awake(StartStepped(s, StartConsumer(ok)))
  {
  }

  lemma DisruptionKeepsAwake(s: State, step: OtherStep)
    requires Latest(s) && Awake(s) && OtherCan(s, step) && Disruptive(step)
    ensures Awake(OtherStepped(s, step))
  {
  }

  lemma OtherKeepsAwake(s: State, step: OtherStep)
    requires Latest(s) && Awake(s) && OtherCan(s, step)
    ensures Awake(OtherStepped(s, step))
  {
    if Disruptive(step) {
      DisruptionKeepsAwake(s, step);
    } else {
      SignallersOnly(s, step);
    }
  }

  lemma StepKeepsAll(s: State, a: Action)
    requires Inv(s) && Coherent(s) && Awake(s) && Enabled(s, a)
    ensures Inv(Apply(s, a)) && Coherent(Apply(s, a)) && Awake(Apply(s, a))
  {
    InvStep(s, a);
    match a
    case Connect(step) => ConnectKeepsCoherent(s, step); ConnectKeepsAwake(s, step);
    case Channels(step) => ChannelKeepsCoherent(s, step); ChannelKeepsAwake(s, step);
    case StartUp(step) => StartKeepsCoherent(s, step); StartKeepsAwake(s, step);
    case Other(step) => OtherKeepsCoherent(s, step); OtherKeepsAwake(s, step);
  }

  // ---------- guarantees of every run ----------

  lemma {:induction false} RunsKeepAll(r: Run)
    requires Legal(r)
    ensures Inv(End(r)) && Coherent(End(r)) && Awake(End(r))
  {
    match r
    case Start(s) =>
    case Then(before, a) =>
      RunsKeepAll(before);
      StepKeepsAll(End(before), a);
  }

  /** Before shutdown a routine that waits while its connection is closed has a signal to take, or
      that connection's watcher still holds the error: dropped sends never lose the last signal. */
  lemma NoLostWakeUp(r: Run)
    requires Legal(r)
    ensures var s := End(r);
            s.routine == Parked && s.teardown == NotBegun && s.connection.Some? && IsClosed(s, s.connection.value) ==>
              s.signals > 0
              || (s.connection.value in s.watchers && s.watchers[s.connection.value] == Notified)
  {
    RunsKeepAll(r);
  }

  /** Whichever path failed, the routine waits only when it has finished or has a signal to take. */
  lemma NeverParksHalfBuilt(r: Run)
    requires Legal(r) && End(r).routine == Parked
    ensures End(r).initialized || End(r).signals > 0
  {
    RunsKeepAll(r);
  }

  /** Before shutdown fullyInitialized means everything is there, on one connection. */
  lemma InitializedMeansComplete(r: Run)
    requires Legal(r) && End(r).teardown != Finished && End(r).initialized
    ensures var s := End(r);
            && s.running && s.connected && s.connection.Some? && s.consume.Some? && s.publish.Some?
            && s.consume.value.conn == s.publish.value.conn == s.connection.value
  {
    RunsKeepAll(r);
  }

  /** Healthy tells exactly whether the broker is fully initialized on an open connection. */
  lemma HealthyIffInitializedAndOpen(r: Run, grace: bool)
    requires Legal(r) && End(r).teardown == NotBegun
    ensures var s := End(r);
            Healthy(s, grace) <==> s.initialized && s.connection.Some? && !IsClosed(s, s.connection.value)
  {
    RunsKeepAll(r);
  }

  /** With nothing left to take or to pass on, a waiting broker is healthy. */
  lemma QuietMeansHealthy(r: Run, grace: bool)
    requires Legal(r) && End(r).teardown == NotBegun
    requires End(r).routine == Parked && End(r).signals == 0
    requires forall c <- End(r).watchers :: End(r).watchers[c] != Notified
    ensures Healthy(End(r), grace)
  {
    NeverParksHalfBuilt(r);
    NoLostWakeUp(r);
    InitializedMeansComplete(r);
    HealthyIffInitializedAndOpen(r, grace);
  }

  /** Over any sequence of reconnects: one connection at a time, at most one consumer per channel,
      and the channels not closed are the stored ones and those in the hands of the routine. */
  lemma SingleConnectionAndConsumer(r: Run)
    requires Legal(r)
    ensures var s := End(r);
            && |s.open| <= 1
            && (forall ch: Channel :: s.readers[ch] <= 1)
            && s.unclosed == AllKnown(s)
  {
    RunsKeepAll(r);
    var s := End(r);
    if s.open != {} {
      assert s.open == {s.dialed};
    }
  }

  // ---------- channels ----------

  /** Channels the routine has opened and not stored yet. */
  function InHand(r: Routine): nat {
    match r
    case NeedsQos(_, _) => 1
    case HasConsume(_, _) => 1
    case HasBoth(_, _) => 2
    case _ => 0
  }

  /** Whatever failed in between: of all channels ever opened, those without a Close are the two that
      are stored, or none, and the ones the routine is still working on. */
  lemma ChannelBalance(r: Run)
    requires Legal(r)
    ensures var s := End(r);
            && s.unclosed == AllKnown(s)
            && |s.unclosed| == (if s.consume.Some? then 2 else 0) + InHand(s.routine)
            && (forall ch <- s.unclosed :: ch.n <= s.created)
  {
    RunsKeepAll(r);
    KnownSize(End(r));
  }

  lemma KnownSize(s: State)
    requires Latest(s) && NoLeak(s)
    ensures |AllKnown(s)| == (if s.consume.Some? then 2 else 0) + InHand(s.routine)
  {
    if s.consume.Some? {
      assert AllKnown(s) == {s.consume.value, s.publish.value} && s.consume.value != s.publish.value;
    } else {
      assert AllKnown(s) == Private(s.routine);
    }
  }
}
