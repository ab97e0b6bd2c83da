/**
  The AMPS handlers as they are written, with the rest of the process running in between.

  `run` records the steps taken so far.  Each method does what the source does and appends the step
  this amounts to; wherever the source holds no lock, `Others` lets every other actor take any
  steps it can.  A method's contract names the steps that are its own.
*/
module Processes {
  import opened Options
  import opened RabbitMQ
  import opened Runs
  import opened DeliveryProtocol
  import opened DeliveryOwnership
  import opened DeliverySafety
  import opened DeliveryAccounting
  import opened Manifests

  datatype Actor = ConsumerOf(ch: nat) | CheckoutOf(h: nat) | Sweeper | Reconnector

  predicate By(a: Action, me: Actor) {
    match me
    case ConsumerOf(ch) => a.Consume? && a.ch == ch
    case CheckoutOf(h) => a.Http? && a.h == h
    case Sweeper => a.Sweep?
    case Reconnector => a.Reconnect?
  }

  /** `r` continues `r0` with exactly the steps `mine` of actor `me`, in that order, and any steps
      of others in between. */
  predicate Interleaves(r0: Run, r: Run, me: Actor, mine: seq<Action>) {
    || (r == r0 && mine == [])
    || (r.Then? && !By(r.action, me) && Interleaves(r0, r.before, me, mine))
    || (r.Then? && By(r.action, me) && mine != [] && mine[|mine| - 1] == r.action
        && Interleaves(r0, r.before, me, mine[..|mine| - 1]))
  }

  lemma {:induction false} InterleavesJoin(r0: Run, r1: Run, r2: Run, me: Actor, mine: seq<Action>, more: seq<Action>)
    requires Interleaves(r0, r1, me, mine) && Interleaves(r1, r2, me, more)
    ensures Interleaves(r0, r2, me, mine + more)
    decreases r2
  {
    if r2 == r1 && more == [] {
      assert mine + more == mine;
    } else if !By(r2.action, me) {
      InterleavesJoin(r0, r1, r2.before, me, mine, more);
    } else {
      var init := more[..|more| - 1];
      InterleavesJoin(r0, r1, r2.before, me, mine, init);
      assert (mine + more)[..|mine + more| - 1] == mine + init;
    }
  }

  // ---------- what others leave alone ----------

  /** Each kind of actor's bookkeeping is its own, and the lock protects the manifest. */
  ghost predicate Leaves(s: State, a: Action, s': State) {
    && (!a.Http? ==> s'.checkouts == s.checkouts)
    && (!a.Reconnect? ==> s'.phase == s.phase)
    && (!a.Sweep? ==> s'.lock == s.lock && (s.lock != Free ==> s'.jobs == s.jobs))
    && s.now <= s'.now && s'.jobTimeout == s.jobTimeout
  }

  lemma StepLeaves(s: State, a: Action)
    requires Enabled(s, a)
    ensures Leaves(s, a, Apply(s, a))
  {
    match a
    case Broker(b) =>
    case Reconnect(r) =>
    case Consume(ch, c) => ConsumerLeaves(s, ch, c);
    case Http(h, p) =>
    case Sweep(w) => SweepLeaves(s, w);
  }

  lemma ConsumerLeaves(s: State, ch: nat, c: ConsumerStep)
    requires ConsumerCan(s, ch, c)
    ensures Leaves(s, Consume(ch, c), ConsumerStepped(s, ch, c))
    ensures forall ch' <- s.consumers :: ch' != ch ==> ch' in ConsumerStepped(s, ch, c).consumers && ConsumerStepped(s, ch, c).consumers[ch'] == s.consumers[ch']
  {
  }

  lemma SweepLeaves(s: State, w: SweepStep)
    requires SweepCan(s, w)
    ensures Leaves(s, Sweep(w), SweepStepped(s, w))
  {
  }

  lemma StageStays(s: State, a: Action, ch: nat)
    requires Enabled(s, a) && !By(a, ConsumerOf(ch)) && ConsumersShape(s.rabbit, s.consumers) && ch in s.consumers
    ensures ch in Apply(s, a).consumers && StageOf(Apply(s, a), ch) == StageOf(s, ch)
  {
    match a
    case Broker(b) =>
    case Reconnect(r) =>
    case Consume(ch', c) => ConsumerLeaves(s, ch', c);
    case Http(h, p) =>
    case Sweep(w) =>
  }

  lemma {:induction false} OthersKeepCheckout(r0: Run, r: Run, h: nat)
    requires Legal(r) && Interleaves(r0, r, CheckoutOf(h), [])
    ensures Legal(r0)
    ensures h in End(r).checkouts <==> h in End(r0).checkouts
    ensures h in End(r).checkouts ==> End(r).checkouts[h] == End(r0).checkouts[h]
  {
    if r != r0 {
      OthersKeepCheckout(r0, r.before, h);
      StepLeaves(End(r.before), r.action);
    }
  }

  lemma {:induction false} OthersKeepStage(r0: Run, r: Run, ch: nat)
    requires Legal(r) && Interleaves(r0, r, ConsumerOf(ch), []) && ch in End(r0).consumers
    ensures Legal(r0) && ch in End(r).consumers && StageOf(End(r), ch) == StageOf(End(r0), ch)
    ensures Grows(End(r0).rabbit, End(r).rabbit)
  {
    if r != r0 {
      OthersKeepStage(r0, r.before, ch);
      RunsAreWellFormed(r.before);
      StageStays(End(r.before), r.action, ch);
      RabbitGrows(End(r.before), r.action);
    }
  }

  lemma OthersKeepBody(r0: Run, r: Run, ch: nat)
    requires Legal(r) && Interleaves(r0, r, ConsumerOf(ch), [])
    requires ch in End(r0).consumers && HasDelivery(StageOf(End(r0), ch))
    ensures BodyOf(End(r), StageOf(End(r0), ch).d) == BodyOf(End(r0), StageOf(End(r0), ch).d)
  {
    OthersKeepStage(r0, r, ch);
    RunsAreWellFormed(r0);
    assert ConsumerShape(End(r0).rabbit, ch, End(r0).consumers[ch]);
  }

  lemma {:induction false} OthersKeepLocked(r0: Run, r: Run)
    requires Legal(r) && Interleaves(r0, r, Sweeper, []) && End(r0).lock != Free
    ensures Legal(r0) && End(r).lock == End(r0).lock && End(r).jobs == End(r0).jobs
    ensures End(r).now >= End(r0).now && End(r).jobTimeout == End(r0).jobTimeout
  {
    if r != r0 {
      OthersKeepLocked(r0, r.before);
      StepLeaves(End(r.before), r.action);
    }
  }

  lemma {:induction false} OthersKeepPhase(r0: Run, r: Run)
    requires Legal(r) && Interleaves(r0, r, Reconnector, [])
    ensures Legal(r0) && End(r).phase == End(r0).phase
  {
    if r != r0 {
      OthersKeepPhase(r0, r.before);
      StepLeaves(End(r.before), r.action);
    }
  }

  /** How many steps a sweep has left. */
  function StepsLeft(lock: Lock): nat {
    match lock
    case Free => 0
    case Sweeping(todo, nacked) => 2 * |todo| + 1 + if nacked == None then 1 else 0
  }

  /** The step a sweep can take next. */
  ghost function NextSweepStep(s: State): (a: Action)
    requires LockShape(s.jobs, s.lock) && s.lock.Sweeping?
    ensures a.Sweep? && Enabled(s, a)
  {
    if s.lock.nacked.Some? then Sweep(Delete)
    else if s.lock.todo == {} then Sweep(Release)
    else
      var id :| id in s.lock.todo;
      Sweep(Visit(id))
  }

  lemma SweepAdvances(s: State)
    requires LockShape(s.jobs, s.lock) && s.lock.Sweeping?
    ensures StepsLeft(Apply(s, NextSweepStep(s)).lock) < StepsLeft(s.lock)
  {
    if s.lock.nacked.Some? {
      assert |s.lock.todo - {s.lock.nacked.value}| == |s.lock.todo| - 1;
    } else if s.lock.todo != {} {
      var id := NextSweepStep(s).w.id;
      assert |s.lock.todo - {id}| == |s.lock.todo| - 1;
    }
  }

  /** Whoever waits for the manifest lock can get it: a sweep holding it can always finish. */
  lemma {:induction false} LockCanBeReleased(r: Run, me: Actor) returns (r': Run)
    requires Legal(r) && me != Sweeper
    ensures Legal(r') && Interleaves(r, r', me, []) && End(r').lock == Free
    decreases StepsLeft(End(r).lock)
  {
    r' := r;
    if End(r).lock != Free {
      RunsAreWellFormed(r);
      SweepAdvances(End(r));
      var next := Then(r, NextSweepStep(End(r)));
      r' := LockCanBeReleased(next, me);
      assert Interleaves(r, next, me, []);
      InterleavesJoin(r, next, r', me, [], []);
      var none: seq<Action> := [];
      assert none + none == none;
    }
  }

  // ---------- the process ----------

  class Process {
    const manifest: Manifest
    const jobTimeout: int
    var rabbit: Rabbit
    var phase: Phase
    var consumers: map<nat, Consumer>
    var lock: Lock
    var checkouts: map<nat, Checkout>
    var now: nat
    var sweepStart: nat
    var run: Run

    function View(): State
      reads this, manifest
    {
      State(jobTimeout, rabbit, phase, consumers, manifest.jobs, manifest.inserted, manifest.deleted,
      lock, checkouts, now, sweepStart)
    }

    predicate Valid()
      reads this, manifest
    {
      Legal(run) && End(run) == View()
    }

    constructor (jobTimeout: int, maxConcurrency: nat, now: nat)
      ensures Valid() && fresh(manifest) && run == Start(View())
      ensures this.jobTimeout == jobTimeout && rabbit.prefetch == maxConcurrency && this.now == sweepStart == now
      ensures manifest.jobs == map[] && manifest.inserted == manifest.deleted == 0
      ensures lock == Free && phase == Closed && consumers == map[] && checkouts == map[]
    {
      this.jobTimeout := jobTimeout;
      manifest := new Manifest();
      rabbit, phase, consumers := NewBroker(maxConcurrency), Closed, map[];
      lock, checkouts, this.now, sweepStart := Free, map[], now, now;
      run := Start(State(jobTimeout, NewBroker(maxConcurrency), Closed, map[], map[], 0, 0, Free, map[], now, now));
    }

    method Load(r: Run)
      requires Legal(r) && End(r).jobTimeout == jobTimeout
      modifies this, manifest
      ensures Valid() && run == r
    {
      var s := End(r);
      rabbit, phase, consumers, lock, checkouts := s.rabbit, s.phase, s.consumers, s.lock, s.checkouts;
      now, sweepStart, run := s.now, s.sweepStart, r;
      manifest.jobs, manifest.inserted, manifest.deleted := s.jobs, s.inserted, s.deleted;
    }

    /** Every other actor takes any steps it can. */
    method Others(me: Actor)
      requires Valid()
      modifies this, manifest
      ensures Valid() && Interleaves(old(run), run, me, [])
    {
      var r :| Legal(r) && Interleaves(run, r, me, []);
      TimeoutIsFixed(run, r, me);
      Load(r);
    }

    /** Waits for the manifest lock. */
    method Lock(me: Actor)
      requires Valid() && me != Sweeper
      modifies this, manifest
      ensures Valid() && Interleaves(old(run), run, me, []) && lock == Free
    {
      ghost var witness' := LockCanBeReleased(run, me);
      var r :| Legal(r) && Interleaves(run, r, me, []) && End(r).lock == Free;
      TimeoutIsFixed(run, r, me);
      Load(r);
    }

    /** Settles a delivery through the client library, which refuses on a closed channel. */
    method SettleDelivery(d: Delivery, outcome: Outcome) returns (ok: bool)
      modifies this`rabbit
      ensures rabbit == Settle(old(rabbit), d, outcome) && ok == CanSettle(old(rabbit), d)
    {
      ok := CanSettle(rabbit, d);
      rabbit := Settle(rabbit, d, outcome);
    }

    // ---------- POST /acknowledge and POST /reject ----------

    method JobAcknowledge(h: nat, id: string, reschedule: bool) returns (accepted: bool, ghost checked: Run)
      requires Valid() && h !in checkouts
      modifies this, manifest
      ensures Valid() && h !in checkouts
      ensures Legal(checked) && Interleaves(old(run), checked, CheckoutOf(h), [])
      ensures accepted <==> id in End(checked).jobs
      ensures Interleaves(checked, run, CheckoutOf(h), CheckoutSteps(h, id, Acknowledge(reschedule), accepted))
    {
      var job;
      job, checked := TakeJob(h, id, Acknowledge(reschedule));
      accepted := job.Some?;
      if accepted {
        ghost var taken := run;
        Others(CheckoutOf(h));
        OthersKeepCheckout(taken, run, h);
        var ok;
        if reschedule {
          ok := SettleDelivery(job.value.delivery, Nack(true));
        } else {
          ok := SettleDelivery(job.value.delivery, Ack);
        }
        checkouts := checkouts - {h};
        run := Then(run, Http(h, Finish));
        InterleavesJoin(checked, taken, run, CheckoutOf(h),
                        [Http(h, Take(id, Acknowledge(reschedule)))], [Http(h, Finish)]);
      }
    }

    method JobReject(h: nat, id: string, reschedule: bool) returns (accepted: bool, ghost checked: Run)
      requires Valid() && h !in checkouts
      modifies this, manifest
      ensures Valid() && h !in checkouts
      ensures Legal(checked) && Interleaves(old(run), checked, CheckoutOf(h), [])
      ensures accepted <==> id in End(checked).jobs
      ensures Interleaves(checked, run, CheckoutOf(h), CheckoutSteps(h, id, Reject(reschedule), accepted))
    {
      var job;
      job, checked := TakeJob(h, id, Reject(reschedule));
      accepted := job.Some?;
      if accepted {
        ghost var taken := run;
        Others(CheckoutOf(h));
        OthersKeepCheckout(taken, run, h);
        var ok := SettleDelivery(job.value.delivery, Nack(reschedule));
        checkouts := checkouts - {h};
        run := Then(run, Http(h, Finish));
        InterleavesJoin(checked, taken, run, CheckoutOf(h),
                        [Http(h, Take(id, Reject(reschedule)))], [Http(h, Finish)]);
      }
    }

    /** The critical section of both checkouts. */
    method TakeJob(h: nat, id: string, request: Request) returns (job: Option<Job>, ghost checked: Run)
      requires Valid() && h !in checkouts
      modifies this, manifest
      ensures Valid()
      ensures Legal(checked) && Interleaves(old(run), checked, CheckoutOf(h), [])
      ensures run == Then(checked, Http(h, Take(id, request)))
      ensures job == if id in End(checked).jobs then Some(End(checked).jobs[id]) else None
      ensures if job.Some? then h in checkouts && checkouts[h] == Checkout(job.value.delivery, request) else h !in checkouts
    {
      Lock(CheckoutOf(h));
      checked := run;
      OthersKeepCheckout(old(run), run, h);
      job := None;
      if manifest.HasJob(id) {
        job := manifest.GetJob(id);
        manifest.DeleteJob(id);
        checkouts := checkouts[h := Checkout(job.value.delivery, request)];
      }
      run := Then(run, Http(h, Take(id, request)));
    }

    // ---------- the consumer ----------

    method SetStageTo(ch: nat, stage: Stage)
      requires ch in consumers
      modifies this`consumers
      ensures consumers == old(consumers)[ch := old(consumers)[ch].(stage := stage)]
    {
      consumers := consumers[ch := consumers[ch].(stage := stage)];
    }

    /** Nacks without requeueing and leaves the handler. */
    method Discard(ch: nat, d: Delivery, c: ConsumerStep)
      requires Valid() && ConsumerCan(View(), ch, c) && (c == DropMalformed || c == DropDuplicate)
      requires d == StageOf(View(), ch).d
      modifies this, manifest
      ensures Valid() && run == Then(old(run), Consume(ch, c)) && StageOf(View(), ch) == Idle
    {
      var ok := SettleDelivery(d, Nack(false));
      SetStageTo(ch, Idle);
      run := Then(run, Consume(ch, c));
    }

    /** The first critical section: looks for the ID and records the delivery if it is new. */
    method RegisterDelivery(ch: nat) returns (inserted: bool)
      requires Valid() && StageOf(View(), ch).Received? && BodyOf(View(), StageOf(View(), ch).d).Event?
      modifies this, manifest
      ensures Valid() && Interleaves(old(run), run, ConsumerOf(ch), [Consume(ch, Register)])
      ensures StageOf(View(), ch) == if inserted then Triggering(old(StageOf(View(), ch).d)) else Duplicate(old(StageOf(View(), ch).d))
      ensures var id := old(BodyOf(View(), StageOf(View(), ch).d).id);
              id in manifest.jobs && (inserted ==> manifest.jobs[id] == Job(now, id, old(StageOf(View(), ch).d)))
    {
      var d := consumers[ch].stage.d;
      var id := BodyOf(View(), d).id;
      Lock(ConsumerOf(ch));
      OthersKeepStage(old(run), run, ch);
      OthersKeepBody(old(run), run, ch);
      inserted := !manifest.HasJob(id);
      if inserted {
        manifest.InsertJobWithDelivery(id, d, now);
        SetStageTo(ch, Triggering(d));
      } else {
        SetStageTo(ch, Duplicate(d));
      }
      run := Then(run, Consume(ch, Register));
    }

    /** The call of the workload, during which others run. */
    method TriggerWorkload(ch: nat, fails: bool)
      requires Valid() && StageOf(View(), ch).Triggering?
      modifies this, manifest
      ensures Valid() && Interleaves(old(run), run, ConsumerOf(ch), [Consume(ch, TriggerReturns(!fails))])
      ensures StageOf(View(), ch) == if fails then TriggerFailed(old(StageOf(View(), ch).d)) else Idle
    {
      var d := consumers[ch].stage.d;
      Others(ConsumerOf(ch));
      OthersKeepStage(old(run), run, ch);
      SetStageTo(ch, if fails then TriggerFailed(d) else Idle);
      run := Then(run, Consume(ch, TriggerReturns(!fails)));
    }

    /** The second critical section: deletes the job if it is still there. */
    method WithdrawJob(ch: nat) returns (found: bool)
      requires Valid() && StageOf(View(), ch).TriggerFailed?
      modifies this, manifest
      ensures Valid() && Interleaves(old(run), run, ConsumerOf(ch), [Consume(ch, Withdraw)])
      ensures StageOf(View(), ch) == if found then Withdrawn(old(StageOf(View(), ch).d)) else Idle
    {
      var id := IdOf(View(), consumers[ch].stage.d);
      Lock(ConsumerOf(ch));
      OthersKeepStage(old(run), run, ch);
      OthersKeepBody(old(run), run, ch);
      found := DeleteIfPresent(ch, id);
    }

    method DeleteIfPresent(ch: nat, id: string) returns (found: bool)
      requires Valid() && ConsumerCan(View(), ch, Withdraw) && id == IdOf(View(), StageOf(View(), ch).d)
      modifies this`consumers, this`run, manifest
      ensures Valid() && run == Then(old(run), Consume(ch, Withdraw))
      ensures StageOf(View(), ch) == if found then Withdrawn(old(StageOf(View(), ch).d)) else Idle
    {
      var d := consumers[ch].stage.d;
      found := manifest.HasJob(id);
      if found {
        manifest.DeleteJob(id);
        SetStageTo(ch, Withdrawn(d));
      } else {
        SetStageTo(ch, Idle);
      }
      run := Then(run, Consume(ch, Withdraw));
    }

    /** What follows a failed trigger. */
    method TakeBack(ch: nat) returns (requeued: bool)
      requires Valid() && StageOf(View(), ch).TriggerFailed?
      modifies this, manifest
      ensures Valid() && StageOf(View(), ch) == Idle
      ensures Interleaves(old(run), run, ConsumerOf(ch), TakeBackSteps(ch, requeued))
    {
      requeued := WithdrawJob(ch);
      if requeued {
        ghost var withdrawn := run;
        RequeueAfterWithdraw(ch);
        InterleavesJoin(old(run), withdrawn, run, ConsumerOf(ch), [Consume(ch, Withdraw)], [Consume(ch, RequeueWithdrawn)]);
      }
    }

    method RequeueAfterWithdraw(ch: nat)
      requires Valid() && StageOf(View(), ch).Withdrawn?
      modifies this, manifest
      ensures Valid() && StageOf(View(), ch) == Idle
      ensures Interleaves(old(run), run, ConsumerOf(ch), [Consume(ch, RequeueWithdrawn)])
    {
      var d := consumers[ch].stage.d;
      Others(ConsumerOf(ch));
      OthersKeepStage(old(run), run, ch);
      var ok := SettleDelivery(d, Nack(true));
      SetStageTo(ch, Idle);
      run := Then(run, Consume(ch, RequeueWithdrawn));
    }

    method DropAsDuplicate(ch: nat)
      requires Valid() && StageOf(View(), ch).Duplicate?
      modifies this, manifest
      ensures Valid() && StageOf(View(), ch) == Idle
      ensures Interleaves(old(run), run, ConsumerOf(ch), [Consume(ch, DropDuplicate)])
    {
      var d := consumers[ch].stage.d;
      Others(ConsumerOf(ch));
      OthersKeepStage(old(run), run, ch);
      Discard(ch, d, DropDuplicate);
    }

    /** Handles one delivery.  `triggerFails` is what the workload call comes to. */
    method MessageHandler(ch: nat, triggerFails: bool) returns (result: Handled)
      requires Valid() && StageOf(View(), ch).Received?
      modifies this, manifest
      ensures Valid() && StageOf(View(), ch) == Idle
      ensures Interleaves(old(run), run, ConsumerOf(ch), HandlerSteps(ch, result))
      ensures result == Unparseable <==> old(BodyOf(View(), StageOf(View(), ch).d)) == Malformed
      ensures triggerFails ==> result != Sent
      ensures result == Gone || result == Requeued ==> triggerFails
    {
      var me := ConsumerOf(ch);
      var d := consumers[ch].stage.d;
      if BodyOf(View(), d) == Malformed {
        Discard(ch, d, DropMalformed);
        return Unparseable;
      }
      var inserted := RegisterDelivery(ch);
      ghost var registered := run;
      if !inserted {
        DropAsDuplicate(ch);
        InterleavesJoin(old(run), registered, run, me, [Consume(ch, Register)], [Consume(ch, DropDuplicate)]);
        return Known;
      }
      TriggerWorkload(ch, triggerFails);
      ghost var triggered := run;
      InterleavesJoin(old(run), registered, run, me, [Consume(ch, Register)], [Consume(ch, TriggerReturns(!triggerFails))]);
      if !triggerFails {
        return Sent;
      }
      var requeued := TakeBack(ch);
      result := if requeued then Requeued else Gone;
      InterleavesJoin(old(run), triggered, run, me,
                      [Consume(ch, Register)] + [Consume(ch, TriggerReturns(false))], TakeBackSteps(ch, requeued));
    }

    /** The consumer goroutine for a number of rounds: one delivery at a time, until the context is
        cancelled or the stream closed.  `log` says what each delivery came to. */
    method Consumer(ch: nat, rounds: nat) returns (log: seq<Round>, stopped: bool)
      requires Valid() && StageOf(View(), ch) == Idle
      modifies this, manifest
      ensures Valid() && StageOf(View(), ch) == (if stopped then Exited else Idle) && |log| <= rounds
      ensures Interleaves(old(run), run, ConsumerOf(ch), LogSteps(ch, log) + if stopped then [Consume(ch, Exit)] else [])
    {
      log, stopped := [], false;
      for i := 0 to rounds
        invariant Valid() && StageOf(View(), ch) == Idle && |log| <= i
        invariant Interleaves(old(run), run, ConsumerOf(ch), LogSteps(ch, log))
      {
        ghost var before := run;
        var round;
        stopped, round := WaitAndHandle(ch);
        InterleavesJoin(old(run), before, run, ConsumerOf(ch), LogSteps(ch, log), SelectSteps(ch, stopped, round));
        if stopped {
          return;
        }
        LogAdded(ch, log, round);
        log := if round.Some? then log + [round.value] else log;
      }
      assert LogSteps(ch, log) + [] == LogSteps(ch, log);
    }

    /** One pass of the select: the consumer stops, handles a delivery, or finds nothing yet. */
    method WaitAndHandle(ch: nat) returns (stopped: bool, round: Option<Round>)
      requires Valid() && StageOf(View(), ch) == Idle
      modifies this, manifest
      ensures Valid() && StageOf(View(), ch) == if stopped then Exited else Idle
      ensures Interleaves(old(run), run, ConsumerOf(ch), SelectSteps(ch, stopped, round))
    {
      round := None;
      Others(ConsumerOf(ch));
      OthersKeepStage(old(run), run, ch);
      stopped := *;
      if stopped {
        SetStageTo(ch, Exited);
        run := Then(run, Consume(ch, Exit));
      } else if consumers[ch].unread != {} {
        ghost var waited := run;
        var r := HandleOne(ch);
        round := Some(r);
        InterleavesJoin(old(run), waited, run, ConsumerOf(ch), [], RoundSteps(ch, r));
        assert [] + RoundSteps(ch, r) == RoundSteps(ch, r);
      }
    }

    method HandleOne(ch: nat) returns (round: Round)
      requires Valid() && StageOf(View(), ch) == Idle && UnreadOf(View(), ch) != {}
      modifies this, manifest
      ensures Valid() && StageOf(View(), ch) == Idle
      ensures round.d in old(UnreadOf(View(), ch))
      ensures Interleaves(old(run), run, ConsumerOf(ch), RoundSteps(ch, round))
    {
      ReceiveOne(ch);
      var d := consumers[ch].stage.d;
      ghost var received := run;
      var triggerFails := *;
      var result := MessageHandler(ch, triggerFails);
      InterleavesJoin(old(run), received, run, ConsumerOf(ch), [Consume(ch, Receive(d))], HandlerSteps(ch, result));
      round := Round(d, result);
    }

    method ReceiveOne(ch: nat)
      requires Valid() && StageOf(View(), ch) == Idle && UnreadOf(View(), ch) != {}
      modifies this`consumers, this`run
      ensures Valid() && StageOf(View(), ch).Received? && StageOf(View(), ch).d in old(UnreadOf(View(), ch))
      ensures run == Then(old(run), Consume(ch, Receive(StageOf(View(), ch).d)))
      ensures Interleaves(old(run), run, ConsumerOf(ch), [Consume(ch, Receive(StageOf(View(), ch).d))])
    {
      var d :| d in consumers[ch].unread;
      consumers := consumers[ch := DeliveryProtocol.Consumer(consumers[ch].unread - {d}, Received(d))];
      run := Then(run, Consume(ch, Receive(d)));
    }

    // ---------- the timeout sweep ----------

    /** One tick: nacks and deletes every expired job, all under the manifest lock. */
    method SweepExpired() returns (checks: seq<Check>)
      requires Valid() && lock == Free && jobTimeout > 0
      modifies this, manifest
      ensures Valid() && lock == Free
      ensures Interleaves(old(run), run, Sweeper, SweepSteps(checks) + [Sweep(Release)])
      ensures CheckedIds(checks) == old(manifest.jobs.Keys) && |checks| == old(|manifest.jobs|)
      ensures forall c <- checks :: old(now) <= c.at <= now && CorrectCheck(c, old(manifest.jobs), jobTimeout)
      ensures manifest.jobs == old(manifest.jobs) - ExpiredIds(checks)
      ensures forall id <- manifest.jobs :: old(now) - manifest.jobs[id].created <= jobTimeout
    {
      BeginSweep();
      checks := [];
      var todo := manifest.jobs.Keys;
      NothingSweptYet(manifest.jobs, now, jobTimeout);
      while todo != {}
        invariant Valid() && lock == Sweeping(todo, None)
        invariant SweptSoFar(old(manifest.jobs), old(now), jobTimeout, checks, todo, now, manifest.jobs)
        invariant Interleaves(old(run), run, Sweeper, SweepSteps(checks))
      {
        var id :| id in todo;
        ghost var before, began, jobs := run, now, manifest.jobs;
        UncheckedRemain(old(manifest.jobs), old(now), jobTimeout, checks, todo, began, jobs, id);
        var c := VisitJob(id);
        SweptOneMore(old(manifest.jobs), old(now), jobTimeout, checks, todo, began, jobs, c, now, manifest.jobs);
        StepsOneMore(old(run), before, run, checks, c);
        checks := checks + [c];
        todo := todo - {id};
      }
      SweepRemovesExpired(checks, old(manifest.jobs), jobTimeout, old(now));
      ghost var before := run;
      ReleaseSweep();
      InterleavesJoin(old(run), before, run, Sweeper, SweepSteps(checks), [Sweep(Release)]);
    }

    method BeginSweep()
      requires Valid() && lock == Free && jobTimeout > 0
      modifies this`sweepStart, this`lock, this`run
      ensures Valid() && lock == Sweeping(manifest.jobs.Keys, None)
      ensures Interleaves(old(run), run, Sweeper, [Sweep(Begin)])
    {
      sweepStart, lock := now, Sweeping(manifest.jobs.Keys, None);
      run := Then(run, Sweep(Begin));
    }

    method ReleaseSweep()
      requires Valid() && lock == Sweeping({}, None)
      modifies this`lock, this`run
      ensures Valid() && lock == Free
      ensures Interleaves(old(run), run, Sweeper, [Sweep(Release)])
    {
      lock := Free;
      run := Then(run, Sweep(Release));
    }

    /** One entry of the sweep.  Others can run, but not touch the manifest, before the check and
        between the nack and the delete. */
    method VisitJob(id: string) returns (c: Check)
      requires Valid() && lock.Sweeping? && lock.nacked == None && id in lock.todo && id in manifest.jobs
      modifies this, manifest
      ensures Valid() && lock == Sweeping(old(lock).todo - {id}, None)
      ensures c.id == id && old(now) <= c.at <= now && CorrectCheck(c, old(manifest.jobs), jobTimeout)
      ensures manifest.jobs == old(manifest.jobs) - (if c.expired then {id} else {})
      ensures Interleaves(old(run), run, Sweeper, CheckSteps(c))
    {
      Others(Sweeper);
      OthersKeepLocked(old(run), run);
      var job := manifest.jobs[id];
      c := Check(id, now, now - job.created > jobTimeout);
      if c.expired {
        var ok := SettleDelivery(job.delivery, Nack(true));
        lock := Sweeping(lock.todo, Some(id));
      } else {
        lock := Sweeping(lock.todo - {id}, None);
      }
      run := Then(run, Sweep(Visit(id)));
      if c.expired {
        ghost var nacked := run;
        DeleteNacked(id);
        InterleavesJoin(old(run), nacked, run, Sweeper, [Sweep(Visit(id))], [Sweep(Delete)]);
      }
    }

    method DeleteNacked(id: string)
      requires Valid() && lock.Sweeping? && lock.nacked == Some(id)
      modifies this, manifest
      ensures Valid() && lock == Sweeping(old(lock).todo - {id}, None) && old(now) <= now
      ensures manifest.jobs == old(manifest.jobs) - {id}
      ensures Interleaves(old(run), run, Sweeper, [Sweep(Delete)])
    {
      Others(Sweeper);
      OthersKeepLocked(old(run), run);
      DeleteExpired(id);
    }

    method DeleteExpired(id: string)
      requires Valid() && lock.Sweeping? && lock.nacked == Some(id)
      modifies this`lock, this`run, manifest
      ensures Valid() && lock == Sweeping(old(lock).todo - {id}, None) && manifest.jobs == old(manifest.jobs) - {id}
      ensures run == Then(old(run), Sweep(Delete))
    {
      manifest.DeleteJob(id);
      lock := Sweeping(lock.todo - {id}, None);
      assert View() == SweepStepped(old(View()), Delete);
      run := Then(run, Sweep(Delete));
    }

    // ---------- the reconnect routine's cleanup ----------

    method CleanManifest() returns (stale: nat)
      requires Valid() && phase == Closed
      modifies this, manifest
      ensures Valid() && phase == Cleaned && manifest.jobs == map[]
      ensures Interleaves(old(run), run, Reconnector, [Reconnect(Cleanup)])
    {
      Lock(Reconnector);
      OthersKeepPhase(old(run), run);
      stale := manifest.DropStale();
      phase := Cleaned;
      run := Then(run, Reconnect(Cleanup));
    }
  }

  /** What a sweep found for one entry: when it looked, and whether it had expired then. */
  datatype Check = Check(id: string, at: nat, expired: bool)

  ghost predicate CorrectCheck(c: Check, jobs: map<string, Job>, jobTimeout: int) {
    c.id in jobs && (c.expired <==> c.at - jobs[c.id].created > jobTimeout)
  }

  function CheckedIds(checks: seq<Check>): set<string> {
    set c | c in checks :: c.id
  }

  function ExpiredIds(checks: seq<Check>): set<string> {
    set c | c in checks && c.expired :: c.id
  }

  /** An expired entry is requeued once and then deleted; any other is only looked at. */
  function CheckSteps(c: Check): seq<Action> {
    if c.expired then [Sweep(Visit(c.id))] + [Sweep(Delete)] else [Sweep(Visit(c.id))]
  }

  function VisitSteps(checks: seq<Check>): seq<Action> {
    if checks == [] then [] else VisitSteps(checks[..|checks| - 1]) + CheckSteps(checks[|checks| - 1])
  }

  function SweepSteps(checks: seq<Check>): seq<Action> {
    [Sweep(Begin)] + VisitSteps(checks)
  }

  lemma StepsOneMore(r0: Run, r1: Run, r2: Run, checks: seq<Check>, c: Check)
    requires Interleaves(r0, r1, Sweeper, SweepSteps(checks)) && Interleaves(r1, r2, Sweeper, CheckSteps(c))
    ensures Interleaves(r0, r2, Sweeper, SweepSteps(checks + [c]))
  {
    InterleavesJoin(r0, r1, r2, Sweeper, SweepSteps(checks), CheckSteps(c));
    assert (checks + [c])[..|checks|] == checks;
    assert SweepSteps(checks + [c]) == SweepSteps(checks) + CheckSteps(c);
  }

  /** Every entry of `before` outside `todo` has been checked once. */
  ghost predicate CheckedOnce(before: set<string>, checks: seq<Check>, todo: set<string>) {
    todo <= before && CheckedIds(checks) == before - todo && |checks| + |todo| == |before|
  }

  ghost predicate AllCorrect(before: map<string, Job>, start: nat, jobTimeout: int, checks: seq<Check>, now: nat) {
    start <= now && forall c <- checks :: start <= c.at <= now && CorrectCheck(c, before, jobTimeout)
  }

  lemma CheckedOneMore(before: set<string>, checks: seq<Check>, todo: set<string>, c: Check)
    requires CheckedOnce(before, checks, todo) && c.id in todo
    ensures CheckedOnce(before, checks + [c], todo - {c.id}) && c.id !in ExpiredIds(checks)
  {
    IdsAdded(checks, c);
    assert |todo - {c.id}| == |todo| - 1;
    assert forall id <- ExpiredIds(checks) :: id in CheckedIds(checks);
  }

  lemma RemovedOneMore(before: map<string, Job>, checks: seq<Check>, c: Check)
    ensures (before - ExpiredIds(checks)) - (if c.expired then {c.id} else {}) == before - ExpiredIds(checks + [c])
  {
    IdsAdded(checks, c);
  }

  /** The state of a sweep that began at time `start` with the entries `before`. */
  ghost predicate SweptSoFar(before: map<string, Job>, start: nat, jobTimeout: int, checks: seq<Check>,
                             todo: set<string>, now: nat, jobs: map<string, Job>) {
    && CheckedOnce(before.Keys, checks, todo)
    && AllCorrect(before, start, jobTimeout, checks, now)
    && jobs == before - ExpiredIds(checks)
  }

  lemma NothingSweptYet(jobs: map<string, Job>, now: nat, jobTimeout: int)
    ensures SweptSoFar(jobs, now, jobTimeout, [], jobs.Keys, now, jobs) && SweepSteps([]) == [Sweep(Begin)]
  {
    assert |jobs.Keys| == |jobs|;
  }

  lemma UncheckedRemain(before: map<string, Job>, start: nat, jobTimeout: int, checks: seq<Check>,
                        todo: set<string>, now: nat, jobs: map<string, Job>, id: string)
    requires SweptSoFar(before, start, jobTimeout, checks, todo, now, jobs) && id in todo
    ensures id in jobs
  {
    CheckedOneMore(before.Keys, checks, todo, Check(id, now, false));
  }

  lemma SweptOneMore(before: map<string, Job>, start: nat, jobTimeout: int, checks: seq<Check>,
                     todo: set<string>, now: nat, jobs: map<string, Job>, c: Check, now': nat, jobs': map<string, Job>)
    requires SweptSoFar(before, start, jobTimeout, checks, todo, now, jobs) && c.id in todo
    requires now <= c.at <= now' && CorrectCheck(c, jobs, jobTimeout)
    requires jobs' == jobs - (if c.expired then {c.id} else {})
    ensures SweptSoFar(before, start, jobTimeout, checks + [c], todo - {c.id}, now', jobs')
  {
    CheckedOneMore(before.Keys, checks, todo, c);
    RemovedOneMore(before, checks, c);
  }

  lemma IdsAdded(checks: seq<Check>, c: Check)
    ensures CheckedIds(checks + [c]) == CheckedIds(checks) + {c.id}
    ensures ExpiredIds(checks + [c]) == ExpiredIds(checks) + if c.expired then {c.id} else {}
    ensures forall d <- checks + [c] :: d in checks || d == c
  {
  }

  /** Whatever was expired when a sweep took the lock at time `start` is gone after it. */
  lemma SweepRemovesExpired(checks: seq<Check>, jobs: map<string, Job>, jobTimeout: int, start: nat)
    requires CheckedIds(checks) == jobs.Keys
    requires forall c <- checks :: start <= c.at && CorrectCheck(c, jobs, jobTimeout)
    ensures forall id <- jobs :: start - jobs[id].created > jobTimeout ==> id in ExpiredIds(checks)
  {
    forall id <- jobs | start - jobs[id].created > jobTimeout ensures id in ExpiredIds(checks) {
      var c :| c in checks && c.id == id;
    }
  }

  /** What a delivery comes to in the handler. */
  datatype Handled = Unparseable | Known | Sent | Gone | Requeued

  function TakeBackSteps(ch: nat, requeued: bool): seq<Action> {
    if requeued then [Consume(ch, Withdraw)] + [Consume(ch, RequeueWithdrawn)] else [Consume(ch, Withdraw)]
  }

  function HandlerSteps(ch: nat, result: Handled): seq<Action> {
    match result
    case Unparseable => [Consume(ch, DropMalformed)]
    case Known => [Consume(ch, Register)] + [Consume(ch, DropDuplicate)]
    case Sent => [Consume(ch, Register)] + [Consume(ch, TriggerReturns(true))]
    case Gone => [Consume(ch, Register)] + [Consume(ch, TriggerReturns(false))] + TakeBackSteps(ch, false)
    case Requeued => [Consume(ch, Register)] + [Consume(ch, TriggerReturns(false))] + TakeBackSteps(ch, true)
  }

  datatype Round = Round(d: Delivery, result: Handled)

  function RoundSteps(ch: nat, round: Round): seq<Action> {
    [Consume(ch, Receive(round.d))] + HandlerSteps(ch, round.result)
  }

  function LogSteps(ch: nat, log: seq<Round>): seq<Action> {
    if log == [] then [] else LogSteps(ch, log[..|log| - 1]) + RoundSteps(ch, log[|log| - 1])
  }

  function SelectSteps(ch: nat, stopped: bool, round: Option<Round>): seq<Action> {
    if stopped then [Consume(ch, Exit)] else if round.Some? then RoundSteps(ch, round.value) else []
  }

  lemma LogAdded(ch: nat, log: seq<Round>, round: Option<Round>)
    ensures LogSteps(ch, if round.Some? then log + [round.value] else log) == LogSteps(ch, log) + SelectSteps(ch, false, round)
  {
    if round.Some? {
      assert (log + [round.value])[..|log|] == log;
    }
  }

  function CheckoutSteps(h: nat, id: string, request: Request, accepted: bool): seq<Action> {
    if accepted then [Http(h, Take(id, request))] + [Http(h, Finish)] else [Http(h, Take(id, request))]
  }

  lemma {:induction false} TimeoutIsFixed(r0: Run, r: Run, me: Actor)
    requires Legal(r) && Interleaves(r0, r, me, [])
    ensures End(r).jobTimeout == End(r0).jobTimeout
  {
    if r != r0 {
      TimeoutIsFixed(r0, r.before, me);
      StepLeaves(End(r.before), r.action);
    }
  }

  /** Whatever a method and everyone else do, the run is still the one the process was started with. */
  lemma {:induction false} SameBeginning(r0: Run, r: Run, me: Actor, mine: seq<Action>)
    requires Interleaves(r0, r, me, mine)
    ensures Beginning(r) == Beginning(r0)
    decreases r
  {
    if r == r0 && mine == [] {
    } else if !By(r.action, me) {
      SameBeginning(r0, r.before, me, mine);
    } else {
      SameBeginning(r0, r.before, me, mine[..|mine| - 1]);
    }
  }

  /** The guarantees of DeliverySafety are guarantees of every process built from these methods. */
  lemma ProcessGuarantees(p: Process)
    requires p.Valid() && AllSteps(p.run, NoLateInsert) && p.lock == Free
    ensures !p.rabbit.unknownTag
    ensures var maxConcurrency := Beginning(p.run).rabbit.prefetch;
            maxConcurrency > 0 ==> p.manifest.Size() <= maxConcurrency
    ensures p.jobTimeout == Beginning(p.run).jobTimeout
  {
    SingleSettlementUnderA(p.run);
    ConcurrencyBound(p.run);
    ConfigurationIsFixed(p.run);
  }
}
