/**
  The broker object as it is written: the connect routine, channel creation, the dial loop, Start,
  Healthy, the monitors and Teardown, with every other goroutine running in between.

  `run` records the steps taken so far; each method does what the source does to the fields and
  appends the step this amounts to.  Where the connection mutex is not held, `Others` lets every
  other goroutine and the network take any steps they can.
*/
module Brokers {
  import opened Options
  import opened Runs
  import opened Lifecycle
  import opened LifecycleSafety
  import opened LifecycleTeardown
  import opened LifecycleEvents
  import opened Retry

  datatype Goroutine = ConnectRoutine | HealthMonitor | ReconnectionWatchdog | ShutdownHandler

  predicate By(a: Action, me: Goroutine) {
    match me
    case ConnectRoutine => !a.Other?
    case HealthMonitor => a == Other(MonitorLooks) || a == Other(MonitorActs)
    case ReconnectionWatchdog => a.Other? && (a.other.FailsafeLooks? || a.other == FailsafeActs)
    case ShutdownHandler => a == Other(Cancel) || a == Other(FinishTeardown)
  }

  /** `r` continues `r0` without any step of `me`. */
  predicate Meanwhile(r0: Run, r: Run, me: Goroutine) {
    r == r0 || (r.Then? && !By(r.action, me) && Meanwhile(r0, r.before, me))
  }

  /** What a goroutine can rely on while others run. */
  ghost predicate Leaves(s: State, t: State, me: Goroutine) {
    && (me == ConnectRoutine ==>
          && t.routine == s.routine && t.dialed == s.dialed && t.created == s.created
          && t.initialized == s.initialized && t.signals >= s.signals
          && t.open <= s.open && t.unclosed <= s.unclosed && t.created == s.created
          && (s.consume == None && s.publish == None ==> t.unclosed == s.unclosed)
          && t.connection in {None, s.connection} && t.consume in {None, s.consume} && t.publish in {None, s.publish})
    && (me == HealthMonitor ==> t.monitor == s.monitor)
    && (me == ReconnectionWatchdog ==> t.failsafe == s.failsafe)
    && (me == ShutdownHandler ==> t.teardown == s.teardown)
    && (s.teardown != NotBegun ==> t.teardown != NotBegun)
  }

  lemma RoutineLeaves(s: State, a: Action, me: Goroutine)
    requires Enabled(s, a) && !a.Other? && me != ConnectRoutine
    ensures Leaves(s, Apply(s, a), me)
  {
    match a
    case Connect(step) => DialingLeaves(s, step);
    case Channels(step) => ChannelsLeave(s, step);
    case StartUp(step) => StartLeaves(s, step);
  }

  lemma ChannelsLeave(s: State, step: ChannelStep)
    requires ChannelCan(s, step)
    ensures var t := ChannelStepped(s, step);
            t.monitor == s.monitor && t.failsafe == s.failsafe && t.teardown == s.teardown
  {
  }

  lemma StartLeaves(s: State, step: StartStep)
    requires StartCan(s, step)
    ensures var t := StartStepped(s, step);
            t.monitor == s.monitor && t.failsafe == s.failsafe && t.teardown == s.teardown
  {
  }

  lemma DialingLeaves(s: State, step: ConnectStep)
    requires ConnectCan(s, step)
    ensures var t := ConnectStepped(s, step);
            t.monitor == s.monitor && t.failsafe == s.failsafe && t.teardown == s.teardown
  {
  }

  lemma OtherLeaves(s: State, step: OtherStep, me: Goroutine)
    requires OtherCan(s, step) && !By(Other(step), me)
    ensures Leaves(s, OtherStepped(s, step), me)
  {
    if Disruptive(step) {
      ReleaseFacts(s);
    } else if me == ConnectRoutine {
      SignallersOnly(s, step);
    }
  }

  lemma {:induction false} MeanwhileLeaves(r0: Run, r: Run, me: Goroutine)
    requires Legal(r) && Meanwhile(r0, r, me)
    ensures Legal(r0) && Leaves(End(r0), End(r), me)
  {
    if r != r0 {
      MeanwhileLeaves(r0, r.before, me);
      if r.action.Other? {
        OtherLeaves(End(r.before), r.action.other, me);
      } else {
        RoutineLeaves(End(r.before), r.action, me);
      }
    }
  }

  lemma {:induction false} OthersDoNotFail(r0: Run, r: Run)
    requires Meanwhile(r0, r, ConnectRoutine)
    ensures Failures(r) == Failures(r0)
  {
    if r != r0 {
      OthersDoNotFail(r0, r.before);
    }
  }

  /** What the verdict comes to, and when a failure is counted. */
  lemma InitializedAndOpen(r: Run, grace: bool)
    requires Legal(r)
    ensures var s := End(r);
            && (s.teardown == NotBegun ==>
                  (Lifecycle.Healthy(s, grace) <==> s.initialized && s.connection.Some? && s.connection.value in s.open))
            && (s.teardown == NotBegun && s.initialized ==> s.connected)
            && (s.teardown == NotBegun && s.connected ==> s.connection.Some? && s.consume.Some? && s.publish.Some?)
  {
    RunsKeepAll(r);
  }

  lemma NothingStoredYet(r: Run)
    requires Legal(r) && Early(End(r).routine)
    ensures End(r).consume == None && End(r).publish == None
  {
    RunsKeepAll(r);
  }

  lemma StoredIsLimited(r: Run)
    requires Legal(r) && End(r).consume.Some?
    ensures End(r).consume.value in End(r).limited
  {
    ConsumersAreLimited(r, End(r).consume.value);
  }

  /** `after` is `before` and two channels more. */
  predicate NewPair(before: set<Channel>, first: Channel, second: Channel, after: set<Channel>) {
    first != second && {first, second} !! before && after == before + {first, second}
  }

  lemma NewChannelIsNew(r: Run, ch: Channel)
    requires Legal(r) && ch.n > End(r).created
    ensures ch !in End(r).unclosed
  {
    ChannelBalance(r);
  }

  /** The side of the library, and where the goroutines are. */
  datatype World = World(
    routine: Routine,
    dialed: nat,
    created: nat,
    open: set<nat>,
    unclosed: set<Channel>,
    limited: set<Channel>,
    readers: multiset<Channel>,
    watchers: map<nat, Watcher>,
    monitor: Monitor,
    failsafe: bool,
    teardown: Teardown
  )

  class AMQPBroker {
    var running: bool
    var connected: bool
    var fullyInitialized: bool
    var connection: Option<nat>
    var consumeChannel: Option<Channel>
    var publishChannel: Option<Channel>
    var signals: nat
    var consecutiveFailures: nat
    var reconnectCount: nat
    var world: World
    var run: Run

    function View(): State
      reads this
    {
      var w := world;
      State(w.routine, signals, running, connected, fullyInitialized, connection, consumeChannel, publishChannel,
      w.dialed, w.created, w.open, w.unclosed, w.limited, w.readers, w.watchers, w.monitor, w.failsafe, w.teardown)
    }

    predicate Valid()
      reads this
    {
      Legal(run) && End(run) == View()
    }

    /** Initialize: everything empty, and the first signal sent. */
    constructor ()
      ensures Valid() && run == Run.Start(View())
    {
      running, connected, fullyInitialized := false, false, false;
      connection, consumeChannel, publishChannel := None, None, None;
      signals, consecutiveFailures, reconnectCount := 1, 0, 0;
      world := World(Parked, 0, 0, {}, {}, {}, multiset{}, map[], Waiting, false, NotBegun);
      run := Run.Start(State(Parked, 1, false, false, false, None, None, None, 0, 0, {}, {}, {}, multiset{}, map[], Waiting, false, NotBegun));
    }

    method LoadState(s: State)
      modifies this
      ensures View() == s
      ensures run == old(run) && consecutiveFailures == old(consecutiveFailures) && reconnectCount == old(reconnectCount)
    {
      signals, running, connected, fullyInitialized := s.signals, s.running, s.connected, s.initialized;
      connection, consumeChannel, publishChannel := s.connection, s.consume, s.publish;
      world := World(s.routine, s.dialed, s.created, s.open, s.unclosed, s.limited, s.readers, s.watchers, s.monitor, s.failsafe, s.teardown);
    }

    /** Every other goroutine, and the network, take any steps they can. */
    method Others(me: Goroutine)
      requires Valid()
      modifies this
      ensures Valid() && Meanwhile(old(run), run, me) && Leaves(old(View()), View(), me)
    {
      var r :| Legal(r) && Meanwhile(run, r, me);
      MeanwhileLeaves(run, r, me);
      LoadState(End(r));
      run := r;
    }

    /** The connect routine holds no lock: everyone else runs. */
    method Yield()
      requires Valid()
      modifies this
      ensures Valid() && world.routine == old(world.routine) && world.created == old(world.created)
      ensures Failures(run) == old(Failures(run))
      ensures old(NothingStored()) ==> NothingStored() && world.unclosed == old(world.unclosed)
    {
      Others(ConnectRoutine);
      OthersDoNotFail(old(run), run);
    }

    predicate NothingStored()
      reads this
    {
      consumeChannel == None && publishChannel == None
    }

    /** A non-blocking send on the reconnect channel. */
    method SendSignal()
      modifies this`signals
      ensures View() == Signal(old(View()))
      ensures 0 < signals && (old(signals) <= CAPACITY ==> signals <= CAPACITY)
      ensures signals == old(signals) + Bit(old(signals) < 20)
    {
      if signals < CAPACITY {
        signals := signals + 1;
      }
    }

    // ---------- resetting and tearing down ----------

    method CloseConnection()
      modifies this
      ensures View() == Lifecycle.CloseConnection(old(View())) && run == old(run)
      ensures consecutiveFailures == old(consecutiveFailures) && reconnectCount == old(reconnectCount)
    {
      if connection.Some? {
        var c := connection.value;
        world := world.(open := world.open - {c});
        if c in world.watchers && world.watchers[c] == Watching {
          world := world.(watchers := world.watchers[c := Gone]);
        }
        connection := None;
      }
    }

    /** Closes and forgets the channels, then the connection. */
    method ReleaseAll()
      modifies this
      ensures View() == Release(old(View())) && run == old(run)
      ensures consecutiveFailures == old(consecutiveFailures) && reconnectCount == old(reconnectCount)
    {
      if consumeChannel.Some? {
        world := world.(unclosed := world.unclosed - {consumeChannel.value});
        consumeChannel := None;
      }
      if publishChannel.Some? {
        world := world.(unclosed := world.unclosed - {publishChannel.value});
        publishChannel := None;
      }
      CloseConnection();
    }

    method Reset()
      requires Valid() && world.routine == Resetting
      modifies this
      ensures Valid() && run == Then(old(run), Connect(ResetAll)) && world.routine == Cleaning
      ensures Quiet(View()) && !fullyInitialized
    {
      ResetFields();
      run := Then(run, Connect(ResetAll));
    }

    method ResetFields()
      requires world.routine == Resetting
      modifies this
      ensures View() == ConnectStepped(old(View()), ResetAll) && run == old(run)
      ensures Quiet(View()) && !fullyInitialized
    {
      running, connected, fullyInitialized := false, false, false;
      ReleaseAll();
      world := world.(routine := Cleaning);
    }

    /** Leaves the broker quiet; whether it stays so is LifecycleTeardown.TeardownIsFinalIff. */
    method Teardown()
      requires Valid() && world.teardown == NotBegun
      modifies this
      ensures Valid() && world.teardown == Finished && Quiet(View())
      ensures run.Then? && run.action == Other(FinishTeardown)
      ensures Meanwhile(Then(old(run), Other(Cancel)), run.before, ShutdownHandler)
    {
      CancelContext();
      Others(ShutdownHandler);
      ReleaseForGood();
    }

    method CancelContext()
      requires Valid() && world.teardown == NotBegun
      modifies this`world, this`run
      ensures Valid() && world.teardown == Cancelled && run == Then(old(run), Other(Cancel))
    {
      world := world.(teardown := Cancelled);
      run := Then(run, Other(Cancel));
    }

    method ReleaseForGood()
      requires Valid() && world.teardown == Cancelled
      modifies this
      ensures Valid() && world.teardown == Finished && Quiet(View())
      ensures run == Then(old(run), Other(FinishTeardown))
      ensures fullyInitialized == old(fullyInitialized) && signals == old(signals)
    {
      ReleaseAll();
      connected, running := false, false;
      world := world.(teardown := Finished);
      run := Then(run, Other(FinishTeardown));
    }

    // ---------- health ----------

    /** There should be an open connection by now and there is none. */
    predicate CountsAsFailure(s: State, grace: bool) {
      s.teardown == NotBegun && (s.initialized || !grace) && !(s.connected && s.connection.Some? && s.connection.value in s.open)
    }

    /** `sinceStartup` is in seconds. */
    method Healthy(sinceStartup: nat) returns (healthy: bool)
      requires Valid()
      modifies this
      ensures Valid() && run == Then(old(run), Other(Probe(sinceStartup < 10)))
      ensures healthy == Lifecycle.Healthy(old(View()), sinceStartup < 10)
      ensures healthy ==> consecutiveFailures == 0
      ensures !healthy ==>
                consecutiveFailures == old(consecutiveFailures) + if CountsAsFailure(old(View()), sinceStartup < 10) then 1 else 0
      ensures world.teardown == NotBegun ==> (healthy <==> fullyInitialized && connection.Some? && connection.value in world.open)
      ensures Done(View()) ==> !healthy
      ensures signals == old(signals) + Bit(old(signals) < 20 && CountsAsFailure(old(View()), sinceStartup < 10)
                                            && connected && connection.Some?)
    {
      InitializedAndOpen(run, sinceStartup < 10);
      healthy := Judge(sinceStartup);
      run := Then(run, Other(Probe(sinceStartup < 10)));
    }

    /** There is neither an open connection nor an excuse. */
    predicate SomethingMissing(s: State, grace: bool) {
      && s.teardown == NotBegun && (s.initialized || !grace)
      && (!s.connected || s.connection == None || s.connection.value !in s.open || s.consume == None || s.publish == None)
    }

    method Judge(sinceStartup: nat) returns (healthy: bool)
      modifies this`signals, this`consecutiveFailures
      ensures healthy == Lifecycle.Healthy(old(View()), sinceStartup < 10)
      ensures View() == if ProbeSignals(old(View()), sinceStartup < 10) then Signal(old(View())) else old(View())
      ensures healthy ==> consecutiveFailures == 0
      ensures !healthy ==>
                consecutiveFailures == old(consecutiveFailures) + Bit(SomethingMissing(old(View()), sinceStartup < 10))
    {
      if Done(View()) {
        healthy := false;
      } else if sinceStartup < 10 && !fullyInitialized {
        healthy := false;
      } else if !connected || connection == None {
        consecutiveFailures := consecutiveFailures + 1;
        healthy := false;
      } else if IsClosed(View(), connection.value) {
        consecutiveFailures := consecutiveFailures + 1;
        SendSignal();
        healthy := false;
      } else if consumeChannel == None || publishChannel == None {
        consecutiveFailures := consecutiveFailures + 1;
        healthy := false;
      } else if !fullyInitialized {
        healthy := false;
      } else {
        consecutiveFailures := 0;
        healthy := true;
      }
    }

    // ---------- the monitors ----------

    /** One tick of the health monitor: it acts on what it saw, possibly too late. */
    method HealthMonitorTick()
      requires Valid() && world.monitor == Waiting
      modifies this
      ensures Valid() && world.monitor == Waiting
      ensures run.Then? && run.action == Other(MonitorActs)
      ensures Meanwhile(Then(old(run), Other(MonitorLooks)), run.before, HealthMonitor)
      ensures var before := End(run.before).signals;
              signals == before + Bit(before < 20 && old(connected) && (old(connection) == None || old(connection).value !in world.open))
    {
      LookAtState();
      Others(HealthMonitor);
      ActOnState();
    }

    method LookAtState()
      requires Valid() && world.monitor == Waiting
      modifies this`world, this`run
      ensures Valid() && world.monitor == Seen(connected, connection) && run == Then(old(run), Other(MonitorLooks))
    {
      world := world.(monitor := Seen(connected, connection));
      run := Then(run, Other(MonitorLooks));
    }

    method ActOnState()
      requires Valid() && world.monitor.Seen?
      modifies this`world, this`run, this`signals
      ensures Valid() && world.monitor == Waiting && run == Then(old(run), Other(MonitorActs))
      ensures signals == old(signals) || signals == old(signals) + 1
      ensures signals == old(signals) + 1 <==>
                && old(signals) < 20 && old(world).monitor.connected
                && (old(world).monitor.connection == None || old(world).monitor.connection.value !in world.open)
    {
      var seen := world.monitor;
      world := world.(monitor := Waiting);
      if seen.connected && (seen.connection == None || IsClosed(View(), seen.connection.value)) {
        SendSignal();
      }
      run := Then(run, Other(MonitorActs));
    }

    /** One tick of the reconnection watchdog; `stale` says the last attempt is over 90 seconds ago. */
    method ReconnectionWatchdogTick(stale: bool)
      requires Valid() && !world.failsafe
      modifies this
      ensures Valid() && !world.failsafe
      ensures if old(connected) || !stale then run == Then(old(run), Other(FailsafeLooks(stale)))
              else run.Then? && run.action == Other(FailsafeActs)
                   && Meanwhile(Then(old(run), Other(FailsafeLooks(stale))), run.before, ReconnectionWatchdog)
      ensures old(!connected) && stale ==>
                signals == End(run.before).signals + Bit(End(run.before).signals < 20)
    {
      var force := CheckStale(stale);
      if force {
        Others(ReconnectionWatchdog);
        ForceReconnect();
      }
    }

    method CheckStale(stale: bool) returns (force: bool)
      requires Valid() && !world.failsafe
      modifies this`world, this`run
      ensures Valid() && world.failsafe == force == (!connected && stale)
      ensures run == Then(old(run), Other(FailsafeLooks(stale)))
    {
      force := !connected && stale;
      world := world.(failsafe := force);
      run := Then(run, Other(FailsafeLooks(stale)));
    }

    method ForceReconnect()
      requires Valid() && world.failsafe
      modifies this`signals, this`world, this`run
      ensures Valid() && !world.failsafe && signals > 0 && run == Then(old(run), Other(FailsafeActs))
      ensures signals == old(signals) + Bit(old(signals) < 20)
    {
      SendSignal();
      world := world.(failsafe := false);
      run := Then(run, Other(FailsafeActs));
    }

    // ---------- the connect routine ----------

    /** Dials until a connection is there or the context is cancelled, at most `dials` times. */
    method AmqpConnect(dials: nat) returns (delays: seq<nat>)
      requires Valid() && world.routine == AtDial(0)
      modifies this
      ensures Valid() && DoublingDelays(delays) && |delays| <= dials
      ensures world.routine.Dialed? || world.routine == Quit || (world.routine == AtDial(dials) && |delays| == dials)
      ensures world.routine.Dialed? ==> world.routine.c in world.open
      ensures world.routine == Quit ==> Done(View())
      ensures |delays| == Failures(run) - old(Failures(run))
    {
      delays := [];
      while |delays| < dials
        invariant Valid() && world.routine == AtDial(|delays|) && DoublingDelays(delays) && |delays| <= dials
        invariant |delays| == Failures(run) - old(Failures(run))
      {
        var failing := Dial();
        if !failing {
          return;
        }
        var attempt := DialFailed();
        var backoff := NextBackoff(attempt, delays);
        delays := delays + [backoff];
        var woken := WaitOut();
        if !woken {
          return;
        }
      }
    }

    /** Checks the context and dials; true if the dial is going to fail. */
    method Dial() returns (failing: bool)
      requires Valid() && world.routine.AtDial?
      modifies this
      ensures Valid()
      ensures failing ==> world.routine == Dialing(old(world.routine).failures)
      ensures !failing ==> (world.routine.Dialed? && world.routine.c in world.open) || (world.routine == Quit && Done(View()))
      ensures Failures(run) == old(Failures(run))
    {
      Yield();
      var cancelled := CheckDialContext();
      if cancelled {
        return false;
      }
      Yield();
      failing := *;
      if !failing {
        DialDone();
      }
    }

    method CheckDialContext() returns (cancelled: bool)
      requires Valid() && world.routine.AtDial?
      modifies this`world, this`run
      ensures Valid() && cancelled == Done(View())
      ensures world.routine == if cancelled then Quit else Dialing(old(world.routine).failures)
      ensures Failures(run) == old(Failures(run))
    {
      cancelled := Done(View());
      world := world.(routine := if cancelled then Quit else Dialing(world.routine.failures));
      run := Then(run, Connect(CheckDial));
    }

    method DialDone()
      requires Valid() && world.routine.Dialing?
      modifies this`world, this`run
      ensures Valid() && world.routine.Dialed? && world.routine.c in world.open
      ensures Failures(run) == old(Failures(run))
    {
      var c := world.dialed + 1;
      world := world.(dialed := c, open := world.open + {c}, routine := Dialed(c));
      run := Then(run, Connect(DialSucceeds));
    }

    method DialFailed() returns (attempt: nat)
      requires Valid() && world.routine.Dialing?
      modifies this`world, this`run
      ensures Valid() && attempt == old(world.routine).failures + 1 && world.routine == BackingOff(attempt)
      ensures Failures(run) == old(Failures(run)) + 1
    {
      attempt := world.routine.failures + 1;
      world := world.(routine := BackingOff(attempt));
      run := Then(run, Connect(DialFails));
    }

    method WaitOut() returns (woken: bool)
      requires Valid() && world.routine.BackingOff?
      modifies this
      ensures Valid() && world.routine == if woken then AtDial(old(world.routine).failures) else Quit
      ensures !woken ==> Done(View())
      ensures Failures(run) == old(Failures(run))
    {
      Yield();
      woken := BackoffOver();
    }

    /** The timer or the context, whichever the select picks if both are ready. */
    method BackoffOver() returns (woken: bool)
      requires Valid() && world.routine.BackingOff?
      modifies this`world, this`run
      ensures Valid() && world.routine == if woken then AtDial(old(world.routine).failures) else Quit
      ensures !woken ==> Done(View())
      ensures Failures(run) == old(Failures(run))
    {
      var timer := *;
      woken := timer || !Done(View());
      if woken {
        world := world.(routine := AtDial(world.routine.failures));
        run := Then(run, Connect(BackoffEnds));
      } else {
        world := world.(routine := Quit);
        run := Then(run, Connect(BackoffCancelled));
      }
    }

    // ---------- createChannels ----------

    /** Up to five attempts; `sleeps` is in seconds. */
    method CreateChannels() returns (ok: bool, sleeps: seq<nat>)
      requires Valid() && world.routine == Checking(0)
      modifies this
      ensures Valid() && world.routine == if ok then ChannelsStored else Failed
      ensures ok ==> StoredTwoMore(old(world.unclosed)) && |world.unclosed| == old(|world.unclosed|) + 2
      ensures !ok ==> NothingStored() && world.unclosed == old(world.unclosed)
      ensures LinearDelays(sleeps) && Sum(sleeps) <= 15
      ensures old(NothingStored())
      ensures |sleeps| == Failures(run) - old(Failures(run))
      ensures !ok ==> |sleeps| == 5 || Done(View()) || connection == None || IsClosed(View(), connection.value)
    {
      NothingStoredYet(run);
      sleeps := RetryChannels();
      ChannelSleeps(sleeps);
      ok := world.routine == ChannelsStored;
    }

    /** The attempts: until both channels are stored, there is no connection, or five have failed. */
    method RetryChannels() returns (sleeps: seq<nat>)
      requires Valid() && world.routine == Checking(0) && NothingStored()
      modifies this
      ensures CreationOver(old(world.unclosed)) && LinearDelays(sleeps) && |sleeps| <= MAX_RETRIES
      ensures Failures(run) == old(Failures(run)) + |sleeps|
      ensures world.routine == Failed ==> |sleeps| == 5 || CannotGoOn()
    {
      sleeps := [];
      var retry: nat := 0;
      while retry < MAX_RETRIES
        invariant |sleeps| == retry <= MAX_RETRIES && LinearDelays(sleeps)
        invariant Failures(run) == old(Failures(run)) + |sleeps|
        invariant Valid() && world.routine == Checking(retry) && NothingStored() && world.unclosed == old(world.unclosed)
      {
        var again := AttemptChannels();
        if !again {
          return;
        }
        sleeps := sleeps + [retry + 1];
        retry := retry + 1;
      }
      var more := CheckContext();
    }

    /** The broker is shutting down, or has no open connection. */
    predicate CannotGoOn()
      reads this
    {
      Done(View()) || connection == None || IsClosed(View(), connection.value)
    }

    /** Both channels are stored, on one connection; they are new and nothing else is. */
    predicate StoredTwoMore(before: set<Channel>)
      reads this
    {
      && consumeChannel.Some? && publishChannel.Some?
      && var consume, publish := consumeChannel.value, publishChannel.value;
         consume.conn == publish.conn && NewPair(before, consume, publish, world.unclosed)
    }

    ghost predicate CreationOver(before: set<Channel>)
      reads this
    {
      && Valid()
      && if world.routine == ChannelsStored then StoredTwoMore(before)
         else world.routine == Failed && NothingStored() && world.unclosed == before
    }

    /** One attempt: stores both channels, gives up for want of a connection, or can be repeated. */
    method AttemptChannels() returns (again: bool)
      requires Valid() && world.routine.Checking? && world.routine.retry < MAX_RETRIES && NothingStored()
      modifies this
      ensures !again ==> CreationOver(old(world.unclosed))
      ensures again ==>
                && Valid() && world.routine == Checking(old(world.routine).retry + 1)
                && NothingStored() && world.unclosed == old(world.unclosed)
      ensures Failures(run) == old(Failures(run)) + if again then 1 else 0
      ensures !again && world.routine == Failed ==> CannotGoOn()
    {
      var c := FindConnection();
      if c == None {
        return false;
      }
      var both := TryChannels(c.value);
      if both {
        Yield();
        StoreBoth();
      }
      again := !both;
    }

    /** The checks at the top of the loop: context, then connection. */
    method FindConnection() returns (c: Option<nat>)
      requires Valid() && world.routine.Checking? && world.routine.retry < MAX_RETRIES && NothingStored()
      modifies this
      ensures Valid() && NothingStored() && world.unclosed == old(world.unclosed)
      ensures world.routine == if c.Some? then Opening(old(world.routine).retry, c.value) else Failed
      ensures Failures(run) == old(Failures(run))
      ensures c == None ==> CannotGoOn()
    {
      Yield();
      var more := CheckContext();
      if !more {
        return None;
      }
      Yield();
      c := ReadConnection();
    }

    method CheckContext() returns (more: bool)
      requires Valid() && world.routine.Checking?
      modifies this`world, this`run
      ensures Valid() && world.unclosed == old(world.unclosed)
      ensures more == (old(world.routine).retry < MAX_RETRIES && !Done(View()))
      ensures world.routine == if more then Reading(old(world.routine).retry) else Failed
      ensures Failures(run) == old(Failures(run))
    {
      more := world.routine.retry < MAX_RETRIES && !Done(View());
      world := world.(routine := if more then Reading(world.routine.retry) else Failed);
      run := Then(run, Channels(Lifecycle.CheckContext));
    }

    method ReadConnection() returns (c: Option<nat>)
      requires Valid() && world.routine.Reading?
      modifies this`world, this`run
      ensures Valid() && world.unclosed == old(world.unclosed)
      ensures world.routine == if c.Some? then Opening(old(world.routine).retry, c.value) else Failed
      ensures Failures(run) == old(Failures(run))
      ensures c == None <==> connection == None || IsClosed(View(), connection.value)
      ensures c.Some? ==> c == connection
    {
      c := connection;
      if c.Some? && IsClosed(View(), c.value) {
        c := None;
      }
      world := world.(routine := if c.Some? then Opening(world.routine.retry, c.value) else Failed);
      run := Then(run, Channels(Lifecycle.ReadConnection));
    }

    /** One attempt at both channels on connection `c`; closes what it opened if it fails. */
    method TryChannels(c: nat) returns (both: bool)
      requires Valid() && world.routine.Opening? && world.routine.c == c && NothingStored()
      modifies this
      ensures Valid() && NothingStored()
      ensures both ==>
                && world.routine.HasBoth? && world.routine.consume.conn == world.routine.publish.conn
                && NewPair(old(world.unclosed), world.routine.consume, world.routine.publish, world.unclosed)
      ensures !both ==> world.routine == Checking(old(world.routine).retry + 1) && world.unclosed == old(world.unclosed)
      ensures Failures(run) == old(Failures(run)) + if both then 0 else 1
    {
      both := OpenFirst();
      if both {
        Yield();
        both := OpenPublishChannel();
      }
    }

    /** The consume channel, opened and with its prefetch count set. */
    method OpenFirst() returns (ok: bool)
      requires Valid() && world.routine.Opening? && NothingStored()
      modifies this
      ensures Valid() && NothingStored()
      ensures ok ==>
                && world.routine.HasConsume? && world.routine.retry == old(world.routine).retry
                && world.routine.consume !in old(world.unclosed)
                && world.unclosed == old(world.unclosed) + {world.routine.consume}
      ensures !ok ==> world.routine == Checking(old(world.routine).retry + 1) && world.unclosed == old(world.unclosed)
      ensures Failures(run) == old(Failures(run)) + if ok then 0 else 1
    {
      Yield();
      ok := OpenConsumeChannel();
      if ok {
        Yield();
        ok := SetPrefetch();
      }
    }

    method OpenConsumeChannel() returns (ok: bool)
      requires Valid() && world.routine.Opening?
      modifies this`world, this`run
      ensures Valid()
      ensures ok ==>
                && world.routine.NeedsQos? && world.routine.retry == old(world.routine).retry
                && world.routine.consume !in old(world.unclosed)
                && world.unclosed == old(world.unclosed) + {world.routine.consume}
      ensures !ok ==> world.routine == Checking(old(world.routine).retry + 1) && world.unclosed == old(world.unclosed)
      ensures Failures(run) == old(Failures(run)) + if ok then 0 else 1
    {
      var consumeErr := *;
      ok := !consumeErr && world.routine.c in world.open;
      if ok {
        ConsumeOpened();
      } else {
        ConsumeRefused();
      }
    }

    method ConsumeRefused()
      requires Valid() && world.routine.Opening?
      modifies this`world, this`run
      ensures Valid() && world.routine == Checking(old(world.routine).retry + 1) && world.unclosed == old(world.unclosed)
      ensures Failures(run) == old(Failures(run)) + 1
    {
      world := world.(routine := Checking(world.routine.retry + 1));
      run := Then(run, Channels(OpenConsumeFails));
    }

    method ConsumeOpened()
      requires Valid() && world.routine.Opening? && world.routine.c in world.open
      modifies this`world, this`run
      ensures Valid() && world.routine.NeedsQos? && world.routine.retry == old(world.routine).retry
      ensures world.routine.consume !in old(world.unclosed)
      ensures world.unclosed == old(world.unclosed) + {world.routine.consume}
      ensures Failures(run) == old(Failures(run))
    {
      var ch := Channel(world.routine.c, world.created + 1);
      NewChannelIsNew(run, ch);
      world := world.(created := ch.n, unclosed := world.unclosed + {ch}, routine := NeedsQos(world.routine.retry, ch));
      assert View() == ChannelStepped(old(View()), OpenConsume);
      run := Then(run, Channels(OpenConsume));
    }

    /** Sets the prefetch count of the consume channel; closes the channel if that fails. */
    method SetPrefetch() returns (ok: bool)
      requires Valid() && world.routine.NeedsQos?
      modifies this`world, this`run
      ensures Valid()
      ensures ok ==>
                && world.routine == HasConsume(old(world.routine).retry, old(world.routine).consume)
                && world.unclosed == old(world.unclosed) && world.limited == old(world.limited) + {world.routine.consume}
      ensures !ok ==>
                && world.routine == Checking(old(world.routine).retry + 1)
                && world.unclosed == old(world.unclosed) - {old(world.routine).consume}
      ensures Failures(run) == old(Failures(run)) + if ok then 0 else 1
    {
      var retry, consume := world.routine.retry, world.routine.consume;
      var qosErr := *;
      ok := !qosErr && consume.conn in world.open;
      if ok {
        world := world.(limited := world.limited + {consume}, routine := HasConsume(retry, consume));
        run := Then(run, Channels(SetQos));
      } else {
        world := world.(unclosed := world.unclosed - {consume}, routine := Checking(retry + 1));
        run := Then(run, Channels(QosFails));
      }
    }

    /** Opens the publish channel; closes the consume channel if that fails. */
    method OpenPublishChannel() returns (ok: bool)
      requires Valid() && world.routine.HasConsume?
      modifies this`world, this`run
      ensures Valid()
      ensures ok ==>
                && world.routine.HasBoth? && world.routine.consume == old(world.routine).consume
                && world.routine.publish.conn == world.routine.consume.conn
                && world.routine.publish !in old(world.unclosed)
                && world.unclosed == old(world.unclosed) + {world.routine.publish}
      ensures !ok ==>
                && world.routine == Checking(old(world.routine).retry + 1)
                && world.unclosed == old(world.unclosed) - {old(world.routine).consume}
      ensures Failures(run) == old(Failures(run)) + if ok then 0 else 1
    {
      var publishErr := *;
      ok := !publishErr && world.routine.consume.conn in world.open;
      if ok {
        PublishOpened();
      } else {
        CloseAfterFailure();
      }
    }

    method CloseAfterFailure()
      requires Valid() && world.routine.HasConsume?
      modifies this`world, this`run
      ensures Valid() && world.routine == Checking(old(world.routine).retry + 1)
      ensures world.unclosed == old(world.unclosed) - {old(world.routine).consume}
      ensures Failures(run) == old(Failures(run)) + 1
    {
      var retry, consume := world.routine.retry, world.routine.consume;
      world := world.(unclosed := world.unclosed - {consume}, routine := Checking(retry + 1));
      assert View() == ChannelStepped(old(View()), OpenPublishFails);
      run := Then(run, Channels(OpenPublishFails));
    }

    method PublishOpened()
      requires Valid() && world.routine.HasConsume? && world.routine.consume.conn in world.open
      modifies this`world, this`run
      ensures Valid() && world.routine.HasBoth? && world.routine.consume == old(world.routine).consume
      ensures world.routine.publish.conn == world.routine.consume.conn
      ensures world.routine.publish !in old(world.unclosed)
      ensures world.unclosed == old(world.unclosed) + {world.routine.publish}
      ensures Failures(run) == old(Failures(run))
    {
      var consume := world.routine.consume;
      var ch := Channel(consume.conn, world.created + 1);
      NewChannelIsNew(run, ch);
      world := world.(created := ch.n, unclosed := world.unclosed + {ch}, routine := HasBoth(consume, ch));
      assert View() == ChannelStepped(old(View()), OpenPublish);
      run := Then(run, Channels(OpenPublish));
    }

    method StoreBoth()
      requires Valid() && world.routine.HasBoth?
      modifies this`consumeChannel, this`publishChannel, this`world, this`run
      ensures Valid() && world.routine == ChannelsStored && world.unclosed == old(world.unclosed)
      ensures consumeChannel == Some(old(world.routine).consume) && publishChannel == Some(old(world.routine).publish)
      ensures Failures(run) == old(Failures(run))
    {
      consumeChannel, publishChannel := Some(world.routine.consume), Some(world.routine.publish);
      world := world.(routine := ChannelsStored);
      run := Then(run, Channels(StoreChannels));
    }

    // ---------- starting ----------

    /** Starts one consumer goroutine on the stored channel, unless one is running. */
    method Start() returns (ok: bool)
      requires Valid() && world.routine == Starting
      modifies this`running, this`world, this`run
      ensures Valid() && run == Then(old(run), StartUp(StartConsumer(ok)))
      ensures ok == running && world.routine == if ok then Started else Failed
      ensures old(running) || (ok ==> connected && consumeChannel.Some? && world.readers == old(world.readers) + multiset{consumeChannel.value})
      ensures old(running) || !ok ==> world.readers == old(world.readers)
      ensures ok && !old(running) ==> IsOpen(View(), consumeChannel.value) && consumeChannel.value in world.limited
    {
      if running {
        ok := true;
        world := world.(routine := Started);
      } else if !connected || consumeChannel == None {
        ok := false;
        world := world.(routine := Failed);
      } else {
        var consumeErr := *;
        ok := !consumeErr && IsOpen(View(), consumeChannel.value);
        if ok {
          StoredIsLimited(run);
          running := true;
          world := world.(readers := world.readers + multiset{consumeChannel.value}, routine := Started);
        } else {
          world := world.(routine := Failed);
        }
      }
      run := Then(run, StartUp(StartConsumer(ok)));
    }

    // ---------- the routine ----------

    /** The loop of the connect routine, for a number of rounds. */
    method ConnectLoop(rounds: nat, dials: nat)
      requires Valid() && world.routine == Parked
      modifies this
      ensures Valid() && (world.routine == Parked || world.routine == Quit || world.routine == AtDial(dials))
      ensures world.routine == Parked ==> fullyInitialized || signals > 0
      ensures world.routine == Quit ==> Done(View())
    {
      for i := 0 to rounds
        invariant Valid() && world.routine == Parked
      {
        Yield();
        var cancelFirst := *;
        if Done(View()) && (cancelFirst || signals == 0) {
          StopRoutine();
          return;
        }
        if signals > 0 {
          TakeSignal();
          Reconnect(dials);
          if world.routine != Parked {
            return;
          }
        }
      }
      NeverParksHalfBuilt(run);
    }

    method StopRoutine()
      requires Valid() && world.routine == Parked && Done(View())
      modifies this`world, this`run
      ensures Valid() && world.routine == Quit && Done(View())
    {
      world := world.(routine := Quit);
      run := Then(run, Connect(Stop));
    }

    method TakeSignal()
      requires Valid() && world.routine == Parked && signals > 0
      modifies this`world, this`run, this`signals, this`reconnectCount
      ensures Valid() && world.routine == Resetting && signals == old(signals) - 1
      ensures reconnectCount == old(reconnectCount) + 1
    {
      signals := signals - 1;
      reconnectCount := reconnectCount + 1;
      world := world.(routine := Resetting);
      run := Then(run, Connect(Lifecycle.TakeSignal));
    }

    /** One reconnect: reset, dial, channels, consumer. */
    method Reconnect(dials: nat)
      requires Valid() && world.routine == Resetting
      modifies this
      ensures Valid() && (world.routine == Parked || world.routine == Quit || world.routine == AtDial(dials))
      ensures world.routine == Quit ==> Done(View())
    {
      Yield();
      Reset();
      Yield();
      ManifestCleaned();
      var delays := AmqpConnect(dials);
      if !world.routine.Dialed? {
        return;
      }
      Yield();
      InstallConnection();
      Yield();
      WatchConnection();
      BringUp();
    }

    /** From a watched connection to a running consumer, or back to waiting with a signal sent. */
    method BringUp()
      requires Valid() && world.routine == Checking(0)
      modifies this
      ensures Valid() && (world.routine == Parked || world.routine == Quit)
      ensures world.routine == Quit ==> Done(View())
    {
      var ok, sleeps := CreateChannels();
      if ok {
        Yield();
        MarkConnected();
        Yield();
        ok := Start();
      }
      Yield();
      if ok {
        MarkInitialized();
      } else {
        RetryLater();
      }
    }

    method ManifestCleaned()
      requires Valid() && world.routine == Cleaning
      modifies this`world, this`run
      ensures Valid() && world.routine == AtDial(0)
    {
      world := world.(routine := AtDial(0));
      run := Then(run, Connect(CleanDone));
    }

    method InstallConnection()
      requires Valid() && world.routine.Dialed?
      modifies this`connection, this`world, this`run
      ensures Valid() && world.routine == Installed(old(world.routine).c) && connection == Some(old(world.routine).c)
    {
      connection := Some(world.routine.c);
      world := world.(routine := Installed(world.routine.c));
      run := Then(run, Connect(Install));
    }

    method WatchConnection()
      requires Valid() && world.routine.Installed?
      modifies this`world, this`run
      ensures Valid() && world.routine == Checking(0)
    {
      var c := world.routine.c;
      world := world.(watchers := world.watchers[c := if IsClosed(View(), c) then Gone else Watching], routine := Checking(0));
      run := Then(run, Connect(Watch));
    }

    method MarkConnected()
      requires Valid() && world.routine == ChannelsStored
      modifies this`connected, this`world, this`run
      ensures Valid() && world.routine == Starting
    {
      connected := true;
      world := world.(routine := Starting);
      run := Then(run, StartUp(Lifecycle.MarkConnected));
    }

    method MarkInitialized()
      requires Valid() && world.routine == Started
      modifies this`fullyInitialized, this`world, this`run
      ensures Valid() && world.routine == Parked && fullyInitialized
    {
      fullyInitialized := true;
      world := world.(routine := Parked);
      run := Then(run, StartUp(Finish));
    }

    /** Two seconds later, or at the cancel, whichever the select picks. */
    method RetryLater()
      requires Valid() && world.routine == Failed
      modifies this`signals, this`world, this`run
      ensures Valid() && (world.routine == Parked || world.routine == Quit)
      ensures world.routine == Quit ==> Done(View())
      ensures world.routine == Parked ==> signals > 0
      ensures signals == old(signals) + Bit(world.routine == Parked && old(signals) < 20)
    {
      var timer := *;
      if timer || !Done(View()) {
        SendSignal();
        world := world.(routine := Parked);
        run := Then(run, StartUp(Retry));
      } else {
        world := world.(routine := Quit);
        run := Then(run, StartUp(GiveUp));
      }
    }
  }

  /** The guarantees of LifecycleSafety are guarantees of every broker built from these methods. */
  lemma BrokerGuarantees(b: AMQPBroker)
    requires b.Valid() && b.world.teardown == NotBegun && b.world.routine == Parked
    ensures b.fullyInitialized || b.signals > 0
    ensures b.connection.Some? && b.connection.value !in b.world.open && b.signals == 0 ==>
              b.connection.value in b.world.watchers && b.world.watchers[b.connection.value] == Notified
    ensures |b.world.open| <= 1
  {
    NeverParksHalfBuilt(b.run);
    NoLostWakeUp(b.run);
    SingleConnectionAndConsumer(b.run);
  }
}
