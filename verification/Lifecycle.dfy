/**
  The connection lifecycle as a step system: the routine that owns the connection, everyone who can
  signal it, and the teardown.

  The shared flags and pointers are only touched under the connection mutex, so what happens under
  one acquisition of it is one step.  Library assumptions: a close watcher registered on an open
  connection gets an error if the connection is lost and nothing if the client closes it; one
  registered on a closed connection gets nothing.  Opening a channel, setting its prefetch count and
  consuming need an open connection.
*/
module Lifecycle {
  import opened Options
  import opened Runs

  /** Capacity of the reconnect channel. */
  const CAPACITY: nat := 20
  const MAX_RETRIES: nat := 5

  /** The n-th channel opened so far, on connection `conn`. */
  datatype Channel = Channel(conn: nat, n: nat)

  /** A close watcher: waiting; holding a close error it has not passed on; gone. */
  datatype Watcher = Watching | Notified | Gone

  /** Where the connect routine is. */
  datatype Routine =
    | Parked                                        // at the select on reconnectChan and ctx.Done
    | Resetting                                     // took a signal
    | Cleaning                                      // resources reset, manifest to be cleaned
    | AtDial(failures: nat)                         // about to check the context in the dial loop
    | Dialing(failures: nat)                        // inside amqp.Dial
    | BackingOff(failures: nat)
    | Dialed(c: nat)                                // holds a connection only it knows
    | Installed(c: nat)                             // stored it, no close watcher yet
    | Checking(retry: nat)                          // createChannels: about to check the context
    | Reading(retry: nat)                           // about to read and check the connection
    | Opening(retry: nat, c: nat)                   // about to open the consume channel
    | NeedsQos(retry: nat, consume: Channel)        // about to set its prefetch count
    | HasConsume(retry: nat, consume: Channel)      // about to open the publish channel
    | HasBoth(consume: Channel, publish: Channel)   // about to store both
    | ChannelsStored                                // about to set connected
    | Starting                                      // about to call Start
    | Started                                       // about to set fullyInitialized
    | Failed                                        // waiting two seconds before signalling itself
    | Quit

  /** The health monitor between reading the state and acting on it. */
  datatype Monitor = Waiting | Seen(connected: bool, connection: Option<nat>)

  datatype Teardown = NotBegun | Cancelled | Finished

  datatype State = State(
    routine: Routine,
    signals: nat,                     // waiting in reconnectChan
    running: bool,
    connected: bool,
    initialized: bool,
    connection: Option<nat>,
    consume: Option<Channel>,
    publish: Option<Channel>,
    dialed: nat,                      // connections established so far, numbered from 1
    created: nat,                     // channels opened so far
    open: set<nat>,                   // connections that are open
    unclosed: set<Channel>,           // channels opened that AMPS has not called Close on
    limited: set<Channel>,            // channels with their prefetch count set to MaxConcurrency
    readers: multiset<Channel>,       // consumer goroutines started
    watchers: map<nat, Watcher>,
    monitor: Monitor,
    failsafe: bool,                   // the reconnection watchdog is about to signal
    teardown: Teardown
  )

  /** Initialize has sent the first signal. */
  predicate Init(s: State) {
    s == State(Parked, 1, false, false, false, None, None, None, 0, 0, {}, {}, {}, multiset{}, map[], Waiting, false, NotBegun)
  }

  datatype ConnectStep =
    | TakeSignal | Stop | ResetAll | CleanDone
    | CheckDial | DialFails | DialSucceeds | BackoffEnds | BackoffCancelled
    | Install | Watch

  datatype ChannelStep =
    | CheckContext | ReadConnection
    | OpenConsumeFails | OpenConsume | QosFails | SetQos
    | OpenPublishFails | OpenPublish | StoreChannels

  datatype StartStep =
    | MarkConnected | StartConsumer(ok: bool) | Finish | Retry | GiveUp

  /** Everyone else: the network, the close watchers, the health monitor, the reconnection watchdog,
      a health probe and the teardown. */
  datatype OtherStep =
    | LoseConnection(c: nat)
    | WatcherFires(c: nat, send: bool)
    | WatcherStops(c: nat)
    | MonitorLooks | MonitorActs
    | FailsafeLooks(stale: bool) | FailsafeActs
    | Probe(grace: bool)
    | Cancel | FinishTeardown

  datatype Action =
    | Connect(step: ConnectStep)
    | Channels(chan: ChannelStep)
    | StartUp(start: StartStep)
    | Other(other: OtherStep)

  predicate Done(s: State) {
    s.teardown != NotBegun
  }

  predicate IsClosed(s: State, c: nat) {
    c !in s.open
  }

  /** A non-blocking send: dropped if the buffer is full. */
  function Signal(s: State): State {
    if s.signals < CAPACITY then s.(signals := s.signals + 1) else s
  }

  function At(s: State, r: Routine): State {
    s.(routine := r)
  }

  function Without(channels: set<Channel>, ch: Option<Channel>): set<Channel> {
    match ch
    case None => channels
    case Some(c) => channels - {c}
  }

  /** The client closes the stored connection: its watcher gets no error. */
  function CloseConnection(s: State): State {
    match s.connection
    case None => s
    case Some(c) =>
      s.(open := s.open - {c}, connection := None,
      watchers := if c in s.watchers && s.watchers[c] == Watching then s.watchers[c := Gone] else s.watchers)
  }

  /** Closes and forgets both channels and the connection. */
  function Release(s: State): State {
    CloseConnection(s.(consume := None, publish := None, unclosed := Without(Without(s.unclosed, s.consume), s.publish)))
  }

  function NewChannel(s: State, c: nat): Channel {
    Channel(c, s.created + 1)
  }

  function WithChannel(s: State, c: nat): State {
    s.(created := s.created + 1, unclosed := s.unclosed + {NewChannel(s, c)})
  }

  predicate ConnectCan(s: State, step: ConnectStep) {
    match step
    case TakeSignal => s.routine == Parked && s.signals > 0
    case Stop => s.routine == Parked && Done(s)
    case ResetAll => s.routine == Resetting
    case CleanDone => s.routine == Cleaning
    case CheckDial => s.routine.AtDial?
    case DialFails => s.routine.Dialing?
    case DialSucceeds => s.routine.Dialing?
    case BackoffEnds => s.routine.BackingOff?
    case BackoffCancelled => s.routine.BackingOff? && Done(s)
    case Install => s.routine.Dialed?
    case Watch => s.routine.Installed?
  }

  function ConnectStepped(s: State, step: ConnectStep): State
    requires ConnectCan(s, step)
  {
    match step
    case TakeSignal => At(s.(signals := s.signals - 1), Resetting)
    case Stop => At(s, Quit)
    case ResetAll => At(Release(s.(running := false, connected := false, initialized := false)), Cleaning)
    case CleanDone => At(s, AtDial(0))
    case CheckDial => At(s, if Done(s) then Quit else Dialing(s.routine.failures))
    case DialFails => At(s, BackingOff(s.routine.failures + 1))
    case DialSucceeds =>
      var c := s.dialed + 1;
      At(s.(dialed := c, open := s.open + {c}), Dialed(c))
    case BackoffEnds => At(s, AtDial(s.routine.failures))
    case BackoffCancelled => At(s, Quit)
    case Install => At(s.(connection := Some(s.routine.c)), Installed(s.routine.c))
    case Watch =>
      var c := s.routine.c;
      At(s.(watchers := s.watchers[c := if IsClosed(s, c) then Gone else Watching]), Checking(0))
  }

  predicate ChannelCan(s: State, step: ChannelStep) {
    match step
    case CheckContext => s.routine.Checking?
    case ReadConnection => s.routine.Reading?
    case OpenConsumeFails => s.routine.Opening?
    case OpenConsume => s.routine.Opening? && s.routine.c in s.open
    case QosFails => s.routine.NeedsQos?
    case SetQos => s.routine.NeedsQos? && s.routine.consume.conn in s.open
    case OpenPublishFails => s.routine.HasConsume?
    case OpenPublish => s.routine.HasConsume? && s.routine.consume.conn in s.open
    case StoreChannels => s.routine.HasBoth?
  }

  function ChannelStepped(s: State, step: ChannelStep): State
    requires ChannelCan(s, step)
  {
    match step
    case CheckContext =>
      At(s, if s.routine.retry >= MAX_RETRIES || Done(s) then Failed else Reading(s.routine.retry))
    case ReadConnection =>
      At(s, if s.connection == None || IsClosed(s, s.connection.value) then Failed
         else Opening(s.routine.retry, s.connection.value))
    case OpenConsumeFails => At(s, Checking(s.routine.retry + 1))
    case OpenConsume => At(WithChannel(s, s.routine.c), NeedsQos(s.routine.retry, NewChannel(s, s.routine.c)))
    case QosFails => At(s.(unclosed := s.unclosed - {s.routine.consume}), Checking(s.routine.retry + 1))
    case SetQos => At(s.(limited := s.limited + {s.routine.consume}), HasConsume(s.routine.retry, s.routine.consume))
    case OpenPublishFails =>
      At(s.(unclosed := s.unclosed - {s.routine.consume}), Checking(s.routine.retry + 1))
    case OpenPublish =>
      var c := s.routine.consume.conn;
      At(WithChannel(s, c), HasBoth(s.routine.consume, NewChannel(s, c)))
    case StoreChannels =>
      At(s.(consume := Some(s.routine.consume), publish := Some(s.routine.publish)), ChannelsStored)
  }

  /** A channel works until AMPS closes it or its connection is gone. */
  predicate IsOpen(s: State, ch: Channel) {
    ch in s.unclosed && ch.conn in s.open
  }

  /** Start would find a consumer to start: not running yet, connected, with a channel. */
  predicate CanConsume(s: State) {
    !s.running && s.connected && s.consume.Some? && IsOpen(s, s.consume.value)
  }

  predicate StartCan(s: State, step: StartStep) {
    match step
    case MarkConnected => s.routine == ChannelsStored
    case StartConsumer(ok) => s.routine == Starting && (ok ==> s.running || CanConsume(s)) && (!ok ==> !s.running)
    case Finish => s.routine == Started
    case Retry => s.routine == Failed
    case GiveUp => s.routine == Failed && Done(s)
  }

  function StartStepped(s: State, step: StartStep): State
    requires StartCan(s, step)
  {
    match step
    case MarkConnected => At(s.(connected := true), Starting)
    case StartConsumer(ok) =>
      if s.running then At(s, Started)
      else if ok then At(s.(running := true, readers := s.readers + multiset{s.consume.value}), Started)
      else At(s, Failed)
    case Finish => At(s.(initialized := true), Parked)
    case Retry => At(Signal(s), Parked)
    case GiveUp => At(s, Quit)
  }

  /** What Healthy returns.  `grace` says the process started less than ten seconds ago. */
  predicate Healthy(s: State, grace: bool) {
    && !Done(s)
    && !(grace && !s.initialized)
    && s.connected && s.connection.Some?
    && !IsClosed(s, s.connection.value)
    && s.consume.Some? && s.publish.Some?
    && s.initialized
  }

  /** Whether Healthy sends a signal on the way. */
  predicate ProbeSignals(s: State, grace: bool) {
    && !Done(s)
    && !(grace && !s.initialized)
    && s.connected && s.connection.Some?
    && IsClosed(s, s.connection.value)
  }

  predicate OtherCan(s: State, step: OtherStep) {
    match step
    case LoseConnection(c) => c in s.open
    case WatcherFires(c, send) => c in s.watchers && s.watchers[c] == Notified && (!send ==> Done(s))
    case WatcherStops(c) => c in s.watchers && s.watchers[c] != Gone && Done(s)
    case MonitorLooks => s.monitor == Waiting
    case MonitorActs => s.monitor.Seen?
    case FailsafeLooks(_) => !s.failsafe
    case FailsafeActs => s.failsafe
    case Probe(_) => true
    case Cancel => s.teardown == NotBegun
    case FinishTeardown => s.teardown == Cancelled
  }

  function OtherStepped(s: State, step: OtherStep): State
    requires OtherCan(s, step)
  {
    match step
    case LoseConnection(c) =>
      s.(open := s.open - {c},
      watchers := if c in s.watchers && s.watchers[c] == Watching then s.watchers[c := Notified] else s.watchers)
    case WatcherFires(c, send) =>
      var s' := s.(watchers := s.watchers[c := Gone]);
      if send then Signal(s') else s'
    case WatcherStops(c) => s.(watchers := s.watchers[c := Gone])
    case MonitorLooks => s.(monitor := Seen(s.connected, s.connection))
    case MonitorActs =>
      var seen := s.monitor;
      var s' := s.(monitor := Waiting);
      if seen.connected && (seen.connection == None || IsClosed(s, seen.connection.value)) then Signal(s') else s'
    case FailsafeLooks(stale) => s.(failsafe := !s.connected && stale)
    case FailsafeActs => Signal(s.(failsafe := false))
    case Probe(grace) => if ProbeSignals(s, grace) then Signal(s) else s
    case Cancel => s.(teardown := Cancelled)
    case FinishTeardown => Release(s).(connected := false, running := false, teardown := Finished)
  }

  predicate Enabled(s: State, a: Action) {
    match a
    case Connect(step) => ConnectCan(s, step)
    case Channels(step) => ChannelCan(s, step)
    case StartUp(step) => StartCan(s, step)
    case Other(step) => OtherCan(s, step)
  }

  function Apply(s: State, a: Action): State
    requires Enabled(s, a)
  {
    match a
    case Connect(step) => ConnectStepped(s, step)
    case Channels(step) => ChannelStepped(s, step)
    case StartUp(step) => StartStepped(s, step)
    case Other(step) => OtherStepped(s, step)
  }

  type Run = History<State, Action>

  /** The run starts where Initialize leaves off and every step was enabled where it was taken. */
  predicate Legal(r: Run) {
    match r
    case Start(s) => Init(s)
    case Then(before, a) => Legal(before) && Enabled(End(before), a)
  }

  function End(r: Run): State {
    match r
    case Start(s) => s
    case Then(before, a) => if Enabled(End(before), a) then Apply(End(before), a) else End(before)
  }
}
