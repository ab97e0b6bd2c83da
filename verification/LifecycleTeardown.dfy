/**
  When a teardown is final.  Teardown cancels the context, waits a moment and releases everything,
  but nothing makes the connect routine wait: what matters is where the routine is when the context
  is cancelled.
*/
module LifecycleTeardown {
  import opened Options
  import opened Lifecycle
  import opened LifecycleSafety

  /** Not running, not connected, and holding neither a connection nor a channel. */
  predicate Quiet(s: State) {
    !s.running && !s.connected && s.connection == None && s.consume == None && s.publish == None
  }

  /** The routine is past a context check and still on its way to storing something. */
  predicate PastTheCheck(s: State) {
    match s.routine
    case Dialing(_) => true
    case Dialed(_) => true
    case Reading(_) => s.connection.Some? && s.connection.value in s.open
    case Opening(_, c) => c in s.open
    case NeedsQos(_, ch) => ch.conn in s.open
    case HasConsume(_, ch) => ch.conn in s.open
    case HasBoth(_, _) => true
    case ChannelsStored => true
    case _ => false
  }

  predicate Playable(s: State, acts: seq<Action>)
    decreases |acts|
  {
    acts == [] || (Enabled(s, acts[0]) && Playable(Apply(s, acts[0]), acts[1..]))
  }

  function Played(s: State, acts: seq<Action>): State
    requires Playable(s, acts)
    decreases |acts|
  {
    if acts == [] then s else Played(Apply(s, acts[0]), acts[1..])
  }

  /** In every state after the steps `acts`, a finished teardown has left the broker quiet. */
  predicate QuietOnceFinished(s: State, acts: seq<Action>) {
    Playable(s, acts) && Played(s, acts).teardown == Finished ==> Quiet(Played(s, acts))
  }

  // ---------- final ----------

  predicate Settling(s: State) {
    s.teardown != NotBegun && !PastTheCheck(s) && (s.teardown == Finished ==> Quiet(s))
  }

  lemma ConnectKeepsSettling(s: State, step: ConnectStep)
    requires Settling(s) && ConnectCan(s, step)
    ensures Settling(ConnectStepped(s, step))
  {
  }

  lemma ChannelKeepsSettling(s: State, step: ChannelStep)
    requires Settling(s) && ChannelCan(s, step)
    ensures Settling(ChannelStepped(s, step))
  {
  }

  lemma StartKeepsSettling(s: State, step: StartStep)
    requires Settling(s) && StartCan(s, step)
    ensures Settling(StartStepped(s, step))
  {
    if step.StartConsumer? {
      ConsumerKeepsSettling(s, step.ok);
    }
  }

  lemma ConsumerKeepsSettling(s: State, ok: bool)
    requires Settling(s) && StartCan(s, StartConsumer(ok))
    ensures Settling(StartStepped(s, StartConsumer(ok)))
  {
  }

  lemma FinishKeepsSettling(s: State)
    requires Settling(s) && s.teardown == Cancelled
    ensures Settling(OtherStepped(s, FinishTeardown))
  {
  }

  lemma OtherKeepsSettling(s: State, step: OtherStep)
    requires Settling(s) && OtherCan(s, step)
    ensures Settling(OtherStepped(s, step))
  {
    if step == FinishTeardown {
      FinishKeepsSettling(s);
    } else if step.LoseConnection? {
    } else {
      SignallersOnly(s, step);
    }
  }

  lemma {:induction false} SettlingLasts(s: State, acts: seq<Action>)
    requires Settling(s) && Playable(s, acts)
    ensures Settling(Played(s, acts))
    decreases |acts|
  {
    if acts != [] {
      match acts[0] {
        case Connect(step) => ConnectKeepsSettling(s, step);
        case Channels(step) => ChannelKeepsSettling(s, step);
        case StartUp(step) => StartKeepsSettling(s, step);
        case Other(step) => OtherKeepsSettling(s, step);
      }
      SettlingLasts(Apply(s, acts[0]), acts[1..]);
    }
  }

  // ---------- not final ----------

  lemma PlayFirst(s: State, a: Action, rest: seq<Action>)
    requires Enabled(s, a) && Playable(Apply(s, a), rest)
    ensures Playable(s, [a] + rest) && Played(s, [a] + rest) == Played(Apply(s, a), rest)
  {
    assert ([a] + rest)[1..] == rest;
  }

  /** How many more steps the routine takes before it stores something. */
  function StepsToStore(r: Routine): nat {
    match r
    case Reading(_) => 4
    case Opening(_, _) => 3
    case NeedsQos(_, _) => 2
    case HasConsume(_, _) => 1
    case Dialing(_) => 1
    case _ => 0
  }

  /** From a state past the check, after the cancel, to one with something stored after teardown. */
  lemma Escape(s: State) returns (acts: seq<Action>)
    requires PastTheCheck(s) && s.teardown == Cancelled
    ensures !QuietOnceFinished(s, acts)
    decreases StepsToStore(s.routine), 1
  {
    match s.routine
    case Dialing(_) => acts := EscapeBy(s, Connect(DialSucceeds));
    case Reading(_) => acts := EscapeBy(s, Channels(ReadConnection));
    case Opening(_, _) => acts := EscapeBy(s, Channels(OpenConsume));
    case NeedsQos(_, _) => acts := EscapeBy(s, Channels(SetQos));
    case HasConsume(_, _) => acts := EscapeBy(s, Channels(OpenPublish));
    case Dialed(_) => acts := EscapeDialed(s);
    case HasBoth(_, _) => acts := EscapeBoth(s);
    case ChannelsStored => acts := EscapeStored(s);
  }

  lemma EscapeDialed(s: State) returns (acts: seq<Action>)
    requires s.routine.Dialed? && s.teardown == Cancelled
    ensures !QuietOnceFinished(s, acts)
  {
    acts := FinishThen(s, Connect(Install));
  }

  lemma EscapeBoth(s: State) returns (acts: seq<Action>)
    requires s.routine.HasBoth? && s.teardown == Cancelled
    ensures !QuietOnceFinished(s, acts)
  {
    acts := FinishThen(s, Channels(StoreChannels));
  }

  lemma EscapeStored(s: State) returns (acts: seq<Action>)
    requires s.routine == ChannelsStored && s.teardown == Cancelled
    ensures !QuietOnceFinished(s, acts)
  {
    acts := FinishThen(s, StartUp(MarkConnected));
  }

  lemma EscapeBy(s: State, a: Action) returns (acts: seq<Action>)
    requires Enabled(s, a) && PastTheCheck(Apply(s, a)) && Apply(s, a).teardown == Cancelled
    requires StepsToStore(Apply(s, a).routine) < StepsToStore(s.routine)
    ensures !QuietOnceFinished(s, acts)
    decreases StepsToStore(s.routine), 0
  {
    var rest := Escape(Apply(s, a));
    PlayFirst(s, a, rest);
    acts := [a] + rest;
  }

  lemma FinishThen(s: State, a: Action) returns (acts: seq<Action>)
    requires s.teardown == Cancelled
    requires var t := OtherStepped(s, FinishTeardown);
             Enabled(t, a) && Apply(t, a).teardown == Finished && !Quiet(Apply(t, a))
    ensures !QuietOnceFinished(s, acts)
  {
    var t := OtherStepped(s, FinishTeardown);
    assert Playable(Apply(t, a), []);
    PlayFirst(t, a, []);
    PlayFirst(s, Other(FinishTeardown), [a] + []);
    acts := [Other(FinishTeardown)] + ([a] + []);
  }

  /** A teardown is final, whatever happens after the cancel, exactly if the cancel does not catch
      the routine past a context check: in particular at its select, resetting or in dial backoff. */
  lemma TeardownIsFinalIff(s: State)
    requires s.teardown == NotBegun
    ensures (forall acts :: QuietOnceFinished(OtherStepped(s, Cancel), acts)) <==> !PastTheCheck(s)
  {
    var t := OtherStepped(s, Cancel);
    if PastTheCheck(s) {
      var acts := Escape(t);
    } else {
      forall acts ensures QuietOnceFinished(t, acts) {
        if Playable(t, acts) {
          SettlingLasts(t, acts);
        }
      }
    }
  }
}
