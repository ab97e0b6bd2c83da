/**
  Recovery: however a broker got where it is, as long as it is not shutting down it can still become
  healthy.  Nobody has to help: the routine goes on by itself, and if it is asleep the watcher of the
  lost connection still has its error to pass on.
*/
module LifecycleRecovery {
  import opened Lifecycle
  import opened LifecycleSafety
  import opened LifecycleTeardown

  /** At its select, and healthy whatever time has passed since the start. */
  predicate Recovered(s: State) {
    s.routine == Parked && Healthy(s, true) && Healthy(s, false)
  }

  /** Where recovery has to start from: before shutdown the routine has not quit. */
  ghost predicate Recoverable(s: State) {
    Inv(s) && Coherent(s) && Awake(s) && s.teardown == NotBegun && s.routine != Quit
  }

  lemma {:induction false} RunsAreRecoverable(r: Run)
    requires Legal(r) && End(r).teardown == NotBegun
    ensures Recoverable(End(r))
  {
    RunsKeepAll(r);
    match r
    case Start(s) =>
    case Then(before, a) =>
      RoutineGoesOn(End(before), a);
      RunsAreRecoverable(before);
  }

  /** There is no way back from a teardown, and before one the routine does not quit. */
  predicate GoesOn(s: State, s': State) {
    s'.teardown == NotBegun ==> s.teardown == NotBegun && (s.routine != Quit ==> s'.routine != Quit)
  }

  lemma RoutineGoesOn(s: State, a: Action)
    requires Enabled(s, a)
    ensures GoesOn(s, Apply(s, a))
  {
    match a
    case Connect(step) => ConnectGoesOn(s, step);
    case Channels(step) => ChannelGoesOn(s, step);
    case StartUp(step) => StartGoesOn(s, step);
    case Other(step) => OtherGoesOn(s, step);
  }

  lemma ConnectGoesOn(s: State, step: ConnectStep)
    requires ConnectCan(s, step)
    ensures GoesOn(s, ConnectStepped(s, step))
  {
  }

  lemma ChannelGoesOn(s: State, step: ChannelStep)
    requires ChannelCan(s, step)
    ensures GoesOn(s, ChannelStepped(s, step))
  {
  }

  lemma StartGoesOn(s: State, step: StartStep)
    requires StartCan(s, step)
    ensures GoesOn(s, StartStepped(s, step))
  {
  }

  lemma OtherGoesOn(s: State, step: OtherStep)
    requires OtherCan(s, step)
    ensures GoesOn(s, OtherStepped(s, step))
  {
    if !Disruptive(step) {
      SignallersOnly(s, step);
    }
  }

  /** The next step towards health. */
  function Next(s: State): Action {
    var up := s.dialed in s.open;
    match s.routine
    case Parked =>
      if s.signals > 0 then Connect(TakeSignal)
      else if s.connection.Some? then Other(WatcherFires(s.connection.value, true)) else Connect(Stop)
    case Resetting => Connect(ResetAll)
    case Cleaning => Connect(CleanDone)
    case AtDial(_) => Connect(CheckDial)
    case Dialing(_) => Connect(DialSucceeds)
    case BackingOff(_) => Connect(BackoffEnds)
    case Dialed(_) => Connect(Install)
    case Installed(_) => Connect(Watch)
    case Checking(_) => Channels(CheckContext)
    case Reading(_) => Channels(ReadConnection)
    case Opening(_, _) => Channels(if up then OpenConsume else OpenConsumeFails)
    case NeedsQos(_, _) => Channels(if up then SetQos else QosFails)
    case HasConsume(_, _) => Channels(if up then OpenPublish else OpenPublishFails)
    case HasBoth(_, _) => Channels(StoreChannels)
    case ChannelsStored => StartUp(MarkConnected)
    case Starting => StartUp(StartConsumer(up))
    case Started => StartUp(Finish)
    case Failed => StartUp(Retry)
    case Quit => Connect(Stop)
  }

  /** An upper bound on the steps left: down the stages with an open connection, or, with a lost one,
      first to a retry. */
  function StepsLeft(s: State): nat {
    var up := s.dialed in s.open;
    match s.routine
    case Parked => if Recovered(s) then 0 else if s.signals > 0 then 21 else 22
    case Resetting => 20
    case Cleaning => 19
    case BackingOff(_) => 18
    case AtDial(_) => 17
    case Dialing(_) => 16
    case Dialed(_) => if up then 15 else 27
    case Installed(_) => if up then 14 else 26
    case Checking(retry) => if up && retry < MAX_RETRIES then 13 else 25
    case Reading(_) => if up then 12 else 24
    case Opening(_, _) => if up then 11 else 26
    case NeedsQos(_, _) => if up then 10 else 26
    case HasConsume(_, _) => if up then 9 else 26
    case HasBoth(_, _) => if up then 8 else 26
    case ChannelsStored => if up then 7 else 25
    case Starting => if up then 6 else 24
    case Started => if up then 5 else 23
    case Failed => 23
    case Quit => 0
  }

  predicate Progress(s: State, s': State) {
    StepsLeft(s') < StepsLeft(s) && s'.teardown == NotBegun && s'.routine != Quit
  }

  lemma ConnectProgress(s: State)
    requires Recoverable(s) && s.routine != Parked && Next(s).Connect?
    ensures Enabled(s, Next(s)) && Progress(s, Apply(s, Next(s)))
  {
  }

  lemma ChannelProgress(s: State)
    requires Recoverable(s) && Next(s).Channels?
    ensures Enabled(s, Next(s)) && Progress(s, Apply(s, Next(s)))
  {
    if s.routine.Checking? || s.routine.Reading? {
      CheckProgress(s);
    } else {
      OpenProgress(s);
    }
  }

  lemma CheckProgress(s: State)
    requires Recoverable(s) && (s.routine.Checking? || s.routine.Reading?)
    ensures Enabled(s, Next(s)) && Progress(s, Apply(s, Next(s)))
  {
  }

  lemma OpenProgress(s: State)
    requires Recoverable(s) && Next(s).Channels? && !s.routine.Checking? && !s.routine.Reading?
    ensures Enabled(s, Next(s)) && Progress(s, Apply(s, Next(s)))
  {
  }

  lemma StartProgress(s: State)
    requires Recoverable(s) && Next(s).StartUp?
    ensures Enabled(s, Next(s)) && Progress(s, Apply(s, Next(s)))
  {
    if s.routine == Starting {
      ConsumerCanStart(s);
    } else if s.routine == Started {
      FinishProgress(s);
    }
  }

  lemma ConsumerCanStart(s: State)
    requires Recoverable(s) && s.routine == Starting
    ensures !s.running && (CanConsume(s) <==> s.dialed in s.open)
  {
  }

  lemma FinishProgress(s: State)
    requires Recoverable(s) && s.routine == Started
    ensures Progress(s, StartStepped(s, Finish))
  {
    StartKeepsCoherent(s, Finish);
  }

  lemma ParkedProgress(s: State)
    requires Recoverable(s) && s.routine == Parked && !Recovered(s)
    ensures Enabled(s, Next(s)) && Progress(s, Apply(s, Next(s)))
  {
  }

  /** Only the routine itself and the watcher of a lost connection act. */
  predicate Unaided(acts: seq<Action>) {
    forall a <- acts :: !a.Other? || a.other.WatcherFires?
  }

  lemma {:induction false} Recover(s: State) returns (acts: seq<Action>)
    requires Recoverable(s)
    ensures Playable(s, acts) && Recovered(Played(s, acts)) && |acts| <= StepsLeft(s) && Unaided(acts)
    decreases StepsLeft(s)
  {
    if Recovered(s) {
      acts := [];
    } else {
      var a := Next(s);
      match a {
        case Connect(_) => if s.routine == Parked { ParkedProgress(s); } else { ConnectProgress(s); }
        case Channels(_) => ChannelProgress(s);
        case StartUp(_) => StartProgress(s);
        case Other(_) => ParkedProgress(s);
      }
      StepKeepsAll(s, a);
      var rest := Recover(Apply(s, a));
      PlayFirst(s, a, rest);
      acts := [a] + rest;
    }
  }

  /** From every state a run can reach before shutdown, at most 27 steps of the broker's own lead to a
      healthy broker. */
  lemma AlwaysRecoverable(r: Run) returns (acts: seq<Action>)
    requires Legal(r) && End(r).teardown == NotBegun
    ensures Playable(End(r), acts) && |acts| <= 27 && Unaided(acts) && Recovered(Played(End(r), acts))
  {
    RunsAreRecoverable(r);
    acts := Recover(End(r));
  }
}
