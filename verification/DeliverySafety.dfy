/**
  What every run of the delivery protocol guarantees, over all interleavings and any number of
  reconnects.

  Two side conditions on runs appear below.  Both are about a handler of an old channel that is
  still busy when the reconnect routine cleans the manifest; see SingleConnectionMeetsBoth.
*/
module DeliverySafety {
  import opened RabbitMQ
  import opened Runs
  import opened DeliveryProtocol
  import opened DeliveryOwnership

  /** (A) Once the manifest has been cleaned, no handler of the old channel records its delivery. */
  predicate NoLateInsert(s: State, a: Action) {
    a.Consume? && a.c == Register && StageOf(s, a.ch).Received? && IdOf(s, StageOf(s, a.ch).d) !in s.jobs ==>
      a.ch == s.rabbit.channel && s.phase != Cleaned
  }

  /** (B) No handler of the old channel is busy when the manifest is cleaned, and none starts later. */
  ghost predicate NoLateHandler(s: State, a: Action) {
    && (a == Reconnect(Cleanup) ==> forall ch <- s.consumers :: !HasDelivery(s.consumers[ch].stage))
    && (a.Consume? && a.c.Receive? ==> a.ch == s.rabbit.channel && s.phase != Cleaned)
  }

  /** Every step of the run meets a condition on the state before it. */
  ghost predicate AllSteps(r: Run, p: (State, Action) -> bool) {
    r.Then? ==> AllSteps(r.before, p) && p(End(r.before), r.action)
  }

  // ---------- what the guards that compare IDs can find ----------

  /** While the handler of the latest channel calls the workload, an entry of that channel under its
      ID is its own. */
  predicate OwnEntry(s: State) {
    var stage := StageOf(s, s.rabbit.channel);
    stage.Triggering? || stage.TriggerFailed? ==>
      var id := IdOf(s, stage.d);
      id in s.jobs && s.jobs[id].delivery.channel == s.rabbit.channel ==> s.jobs[id].delivery == stage.d
  }

  lemma OwnEntryStep(s: State, a: Action)
    requires ConsumersShape(s.rabbit, s.consumers) && OwnEntry(s) && Enabled(s, a)
    ensures OwnEntry(Apply(s, a))
  {
    match a
    case Broker(b) => BrokerKeepsOwn(s, b);
    case Reconnect(r) => ReconnectKeepsOwn(s, r);
    case Consume(ch, c) =>
      assert ConsumerShape(s.rabbit, ch, s.consumers[ch]);
      ConsumerKeepsOwn(s, ch, c);
    case Http(h, p) => HttpKeepsOwn(s, h, p);
    case Sweep(w) => SweepKeepsOwn(s, w);
  }

  lemma BrokerKeepsOwn(s: State, b: BrokerStep)
    requires ConsumersShape(s.rabbit, s.consumers) && OwnEntry(s) && BrokerCan(s, b)
    ensures OwnEntry(BrokerStepped(s, b))
  {
  }

  lemma ReconnectKeepsOwn(s: State, r: ReconnectStep)
    requires OwnEntry(s) && ReconnectCan(s, r)
    ensures OwnEntry(ReconnectStepped(s, r))
  {
  }

  lemma ConsumerKeepsOwn(s: State, ch: nat, c: ConsumerStep)
    requires OwnEntry(s) && ConsumerCan(s, ch, c) && ConsumerShape(s.rabbit, ch, s.consumers[ch])
    ensures OwnEntry(ConsumerStepped(s, ch, c))
  {
    if c == Register {
      RegisterKeepsOwn(s, ch);
    }
  }

  lemma RegisterKeepsOwn(s: State, ch: nat)
    requires OwnEntry(s) && ConsumerCan(s, ch, Register) && StageOf(s, ch).d.channel == ch
    ensures OwnEntry(ConsumerStepped(s, ch, Register))
  {
  }

  lemma HttpKeepsOwn(s: State, h: nat, p: CheckoutStep)
    requires OwnEntry(s) && CheckoutCan(s, h, p)
    ensures OwnEntry(CheckoutStepped(s, h, p))
  {
  }

  lemma SweepKeepsOwn(s: State, w: SweepStep)
    requires OwnEntry(s) && SweepCan(s, w)
    ensures OwnEntry(SweepStepped(s, w))
  {
  }

  /** So in any run a failed trigger only ever takes back its own entry or one of an older channel. */
  lemma {:induction false} RunsOwnEntries(r: Run)
    requires Legal(r)
    ensures WellFormed(End(r)) && OwnEntry(End(r))
  {
    match r
    case Start(s) => InitialOwnership(s);
    case Then(before, a) =>
      RunsOwnEntries(before);
      WellFormedStep(End(before), a);
      OwnEntryStep(End(before), a);
  }

  /** Another published message carries the same event ID. */
  ghost predicate HasNamesake(r: Rabbit, m: Msg) {
    m in r.bodies && exists n <- r.bodies :: n != m && r.bodies[n] == r.bodies[m]
  }

  lemma NamesakesRemain(r: Rabbit, r': Rabbit, m: Msg)
    requires HasNamesake(r, m) && Grows(r, r')
    ensures HasNamesake(r', m)
  {
    var n :| n in r.bodies && n != m && r.bodies[n] == r.bodies[m];
    assert n in r'.bodies;
  }

  /** An entry of the latest channel that is in the way of its handler is of another message. */
  lemma NeverItsOwnDuplicate(s: State)
    requires WellFormed(s) && Exclusive(s) && ConsumerCan(s, s.rabbit.channel, Register)
    requires var id := IdOf(s, StageOf(s, s.rabbit.channel).d);
             id in s.jobs && s.jobs[id].delivery.channel == s.rabbit.channel
    ensures var d := StageOf(s, s.rabbit.channel).d;
            s.jobs[IdOf(s, d)].delivery.msg != d.msg && HasNamesake(s.rabbit, d.msg)
  {
    var ch := s.rabbit.channel;
    var d := StageOf(s, ch).d;
    var id := IdOf(s, d);
    var e := s.jobs[id].delivery;
    assert ConsumerShape(s.rabbit, ch, s.consumers[ch]);
    assert Holds(s, Handler) && Held(s, Handler) == d;
    assert Holds(s, Entry(id)) && Held(s, Entry(id)) == e;
    assert e.msg in s.rabbit.bodies && s.rabbit.bodies[e.msg] == s.rabbit.bodies[d.msg];
  }

  /** The duplicate check of the latest channel meets an entry of an older one under the ID of `d`. */
  predicate MeetsStaleEntry(s: State, a: Action, d: Delivery) {
    && a == Consume(s.rabbit.channel, Register) && StageOf(s, s.rabbit.channel) == Received(d)
    && IdOf(s, d) in s.jobs && s.jobs[IdOf(s, d)].delivery.channel < s.rabbit.channel
  }

  /** A message with an ID of its own is taken for a duplicate exactly if the duplicate check meets an
      entry of an older channel. */
  lemma DuplicateIffStaleEntry(s: State)
    requires WellFormed(s) && Exclusive(s) && ConsumerCan(s, s.rabbit.channel, Register)
    requires !HasNamesake(s.rabbit, StageOf(s, s.rabbit.channel).d.msg)
    ensures var a := Consume(s.rabbit.channel, Register); var d := StageOf(s, s.rabbit.channel).d;
            StageOf(Apply(s, a), s.rabbit.channel) == Duplicate(d) <==> MeetsStaleEntry(s, a, d)
  {
    var d := StageOf(s, s.rabbit.channel).d;
    if IdOf(s, d) in s.jobs && s.jobs[IdOf(s, d)].delivery.channel == s.rabbit.channel {
      NeverItsOwnDuplicate(s);
    }
  }

  // ---------- invariants of (A) and (B) ----------

  /** Under (A) the manifest only ever holds deliveries of the latest channel. */
  ghost predicate FreshManifest(s: State) {
    && (s.phase == Cleaned ==> s.jobs == map[])
    && (forall id <- s.jobs :: s.jobs[id].delivery.channel == s.rabbit.channel)
  }

  ghost predicate OldHandlersGone(s: State) {
    forall ch <- s.consumers ::
      ch < s.rabbit.channel || s.phase == Cleaned ==> !HasDelivery(s.consumers[ch].stage)
  }

  lemma FreshManifestStep(s: State, a: Action)
    requires WellFormed(s) && FreshManifest(s) && Enabled(s, a) && NoLateInsert(s, a)
    ensures FreshManifest(Apply(s, a))
  {
    match a
    case Broker(b) => BrokerKeepsFresh(s, b);
    case Reconnect(r) => ReconnectKeepsFresh(s, r);
    case Consume(ch, c) =>
      assert ConsumerShape(s.rabbit, ch, s.consumers[ch]);
      ConsumerKeepsFresh(s, ch, c);
    case Http(h, p) => HttpKeepsFresh(s, h, p);
    case Sweep(w) => SweepKeepsFresh(s, w);
  }

  lemma BrokerKeepsFresh(s: State, b: BrokerStep)
    requires FreshManifest(s) && BrokerCan(s, b)
    ensures FreshManifest(BrokerStepped(s, b))
  {
  }

  lemma ReconnectKeepsFresh(s: State, r: ReconnectStep)
    requires FreshManifest(s) && ReconnectCan(s, r)
    ensures FreshManifest(ReconnectStepped(s, r))
  {
  }

  lemma ConsumerKeepsFresh(s: State, ch: nat, c: ConsumerStep)
    requires FreshManifest(s) && ConsumerCan(s, ch, c) && NoLateInsert(s, Consume(ch, c))
    requires c == Register ==> StageOf(s, ch).d.channel == ch
    ensures FreshManifest(ConsumerStepped(s, ch, c))
  {
  }

  lemma HttpKeepsFresh(s: State, h: nat, p: CheckoutStep)
    requires FreshManifest(s) && CheckoutCan(s, h, p)
    ensures FreshManifest(CheckoutStepped(s, h, p))
  {
  }

  lemma SweepKeepsFresh(s: State, w: SweepStep)
    requires FreshManifest(s) && SweepCan(s, w)
    ensures FreshManifest(SweepStepped(s, w))
  {
  }

  lemma OldHandlersGoneStep(s: State, a: Action)
    requires ConsumersShape(s.rabbit, s.consumers) && OldHandlersGone(s) && Enabled(s, a) && NoLateHandler(s, a)
    ensures OldHandlersGone(Apply(s, a))
  {
    match a
    case Broker(b) => BrokerKeepsGone(s, b);
    case Reconnect(r) => ReconnectKeepsGone(s, r);
    case Consume(ch, c) => ConsumerKeepsGone(s, ch, c);
    case Http(h, p) =>
    case Sweep(w) => SweepKeepsGone(s, w);
  }

  lemma BrokerKeepsGone(s: State, b: BrokerStep)
    requires OldHandlersGone(s) && BrokerCan(s, b)
    ensures OldHandlersGone(BrokerStepped(s, b))
  {
  }

  lemma ReconnectKeepsGone(s: State, r: ReconnectStep)
    requires ConsumersShape(s.rabbit, s.consumers) && OldHandlersGone(s) && ReconnectCan(s, r)
    requires NoLateHandler(s, Reconnect(r))
    ensures OldHandlersGone(ReconnectStepped(s, r))
  {
  }

  lemma ConsumerKeepsGone(s: State, ch: nat, c: ConsumerStep)
    requires OldHandlersGone(s) && ConsumerCan(s, ch, c) && NoLateHandler(s, Consume(ch, c))
    ensures OldHandlersGone(ConsumerStepped(s, ch, c))
  {
  }

  lemma SweepKeepsGone(s: State, w: SweepStep)
    requires OldHandlersGone(s) && SweepCan(s, w)
    ensures OldHandlersGone(SweepStepped(s, w))
  {
  }

  // ---------- from steps to runs ----------

  ghost predicate Owned(s: State) {
    WellFormed(s) && Exclusive(s) && !s.rabbit.unknownTag
  }

  lemma OwnedStep(s: State, a: Action)
    requires Owned(s) && Enabled(s, a) && HarmlessIfCurrent(s, a)
    ensures Owned(Apply(s, a))
  {
    WellFormedStep(s, a);
    ExclusiveStep(s, a);
    if a != Reconnect(Open) {
      Settlements(s, a);
    }
  }

  /** (A) is enough for the consumer of the latest channel to take back only its own entries. */
  lemma {:induction false} RunsUnderA(r: Run)
    requires Legal(r) && AllSteps(r, NoLateInsert)
    ensures Owned(End(r)) && FreshManifest(End(r)) && AllSteps(r, HarmlessIfCurrent)
  {
    match r
    case Start(s) => InitialOwnership(s);
    case Then(before, a) =>
      RunsUnderA(before);
      RunsOwnEntries(before);
      OwnedStep(End(before), a);
      FreshManifestStep(End(before), a);
  }

  /** (B) implies (A), and with it every failed trigger is harmless. */
  lemma {:induction false} RunsUnderB(r: Run)
    requires Legal(r) && AllSteps(r, NoLateHandler)
    ensures AllSteps(r, NoLateInsert) && AllSteps(r, HarmlessStep) && OldHandlersGone(End(r))
  {
    match r
    case Start(s) =>
    case Then(before, a) =>
      RunsUnderB(before);
      RunsUnderA(before);
      RunsOwnEntries(before);
      OldHandlersGoneStep(End(before), a);
  }

  /** No delivery is settled twice on an open channel, so AMPS never causes an unknown-tag error. */
  lemma {:induction false} SingleSettlement(r: Run)
    requires Legal(r) && AllSteps(r, HarmlessIfCurrent)
    ensures Owned(End(r)) && !End(r).rabbit.unknownTag
  {
    match r
    case Start(s) => InitialOwnership(s);
    case Then(before, a) =>
      SingleSettlement(before);
      OwnedStep(End(before), a);
  }

  lemma SingleSettlementUnderA(r: Run)
    requires Legal(r) && AllSteps(r, NoLateInsert)
    ensures !End(r).rabbit.unknownTag
  {
    RunsUnderA(r);
  }

  ghost predicate ExactlyOneHolder(s: State, d: Delivery) {
    exists k :: Holds(s, k) && Held(s, k) == d && forall l | Holds(s, l) && Held(s, l) == d :: l == k
  }

  /** Every delivery RabbitMQ waits for has exactly one holder: it is not yet read, or it is with the
      handler, the manifest or a checkout, each of which settles it next. */
  lemma {:induction false} NothingOrphaned(r: Run)
    requires Legal(r) && AllSteps(r, HarmlessStep)
    ensures Owned(End(r)) && NoOrphans(End(r))
    ensures forall d <- Outstanding(End(r).rabbit) :: ExactlyOneHolder(End(r), d)
  {
    match r {
      case Start(s) => InitialOwnership(s);
      case Then(before, a) =>
        NothingOrphaned(before);
        OwnedStep(End(before), a);
        NoOrphansStep(End(before), a);
    }
    forall d <- Outstanding(End(r).rabbit) ensures ExactlyOneHolder(End(r), d) {
      assert HeldBySomeone(End(r), d);
    }
  }

  lemma NothingOrphanedUnderB(r: Run)
    requires Legal(r) && AllSteps(r, NoLateHandler)
    ensures forall d <- Outstanding(End(r).rabbit) :: ExactlyOneHolder(End(r), d)
  {
    RunsUnderB(r);
    NothingOrphaned(r);
  }

  /** Whatever a run has done under (A), the duplicate check only ever fires on the open channel
      because of another message; on an old channel its discard has no effect. */
  lemma RequeuedMessagesAreNotDuplicates(r: Run, ch: nat)
    requires Legal(r) && AllSteps(r, NoLateInsert)
    requires ConsumerCan(End(r), ch, Register) && IdOf(End(r), StageOf(End(r), ch).d) in End(r).jobs
    ensures var s := End(r); var d := StageOf(s, ch).d;
            || s.jobs[IdOf(s, d)].delivery.msg != d.msg
            || (d.channel < s.rabbit.channel && Settle(s.rabbit, d, Nack(false)) == s.rabbit)
  {
    RunsUnderA(r);
    var s := End(r);
    assert ConsumerShape(s.rabbit, ch, s.consumers[ch]);
    if ch == s.rabbit.channel {
      NeverItsOwnDuplicate(s);
    }
  }

  // ---------- concurrency ----------

  /** The deliveries of the manifest entries that are still to be settled on the latest channel. */
  function LiveEntries(s: State): set<string> {
    set id | id in s.jobs && Holds(s, Entry(id))
  }

  lemma {:induction false} ImageSize(jobs: map<string, Job>, ids: set<string>, ds: set<Delivery>)
    requires ids <= jobs.Keys && forall id <- ids :: jobs[id].delivery in ds
    requires forall i <- ids, j <- ids :: jobs[i].delivery == jobs[j].delivery ==> i == j
    ensures |ids| <= |ds|
    decreases ids
  {
    if ids != {} {
      var id :| id in ids;
      ImageSize(jobs, ids - {id}, ds - {jobs[id].delivery});
    }
  }

  lemma LiveEntriesBounded(s: State)
    requires WellFormed(s) && Exclusive(s)
    ensures |LiveEntries(s)| <= |s.rabbit.unacked|
  {
    forall i <- LiveEntries(s), j <- LiveEntries(s) | s.jobs[i].delivery == s.jobs[j].delivery ensures i == j {
      assert Holds(s, Entry(i)) && Holds(s, Entry(j));
    }
    forall i <- LiveEntries(s) ensures s.jobs[i].delivery in s.rabbit.unacked {
      assert Holds(s, Entry(i)) && Held(s, Entry(i)) == s.jobs[i].delivery;
    }
    ImageSize(s.jobs, LiveEntries(s), s.rabbit.unacked);
  }

  lemma EntriesAreOutstanding(s: State)
    requires Exclusive(s) && FreshManifest(s) && s.lock == Free
    ensures forall id <- s.jobs :: s.jobs[id].delivery in s.rabbit.unacked
    ensures LiveEntries(s) == s.jobs.Keys
  {
    forall id <- s.jobs ensures Holds(s, Entry(id)) && s.jobs[id].delivery in s.rabbit.unacked {
      assert Holds(s, Entry(id)) && Held(s, Entry(id)) == s.jobs[id].delivery;
    }
  }

  lemma EntriesAreInjective(s: State)
    requires Exclusive(s) && FreshManifest(s) && WellFormed(s)
    ensures forall i <- s.jobs, j <- s.jobs :: s.jobs[i].delivery == s.jobs[j].delivery ==> i == j
  {
  }

  /** Entries map one to one to unsettled deliveries of one channel, so a positive MaxConcurrency
      bounds the manifest, through every timeout, checkout and reconnect. */
  lemma ConcurrencyBound(r: Run)
    requires Legal(r) && AllSteps(r, NoLateInsert) && End(r).lock == Free
    ensures var s := End(r);
            && (forall id <- s.jobs :: s.jobs[id].delivery in s.rabbit.unacked)
            && (forall i <- s.jobs, j <- s.jobs :: s.jobs[i].delivery == s.jobs[j].delivery ==> i == j)
            && (Beginning(r).rabbit.prefetch > 0 ==> |s.jobs| <= Beginning(r).rabbit.prefetch)
  {
    var s := End(r);
    ConfigurationIsFixed(r);
    RunsUnderA(r);
    EntriesAreOutstanding(s);
    EntriesAreInjective(s);
    LiveEntriesBounded(s);
    assert |s.jobs.Keys| == |s.jobs|;
  }

  // ---------- no message is lost ----------

  /** Step `a` finishes, on the open channel, a checkout of message `m` that was requested as `q`. */
  predicate Finishes(s: State, a: Action, m: Msg, q: Request) {
    && a.Http? && a.p == Finish && a.h in s.checkouts
    && s.checkouts[a.h].d.msg == m && CanSettle(s.rabbit, s.checkouts[a.h].d)
    && s.checkouts[a.h].request == q
  }

  /** Step `a` is the handler of the latest channel discarding message `m` unprocessed. */
  predicate Dropped(s: State, a: Action, m: Msg) {
    && a.Consume? && Enabled(s, a) && (a.c == DropMalformed || a.c == DropDuplicate)
    && StageOf(s, a.ch).d.msg == m && CanSettle(s.rabbit, StageOf(s, a.ch).d)
  }

  /** What a step does to the messages taken out for good. */
  ghost predicate Fate(s: State, a: Action, m: Msg, s': State) {
    && (m in s'.rabbit.acked <==> m in s.rabbit.acked || Finishes(s, a, m, Acknowledge(false)))
    && (m in s'.rabbit.discarded <==>
          m in s.rabbit.discarded || Finishes(s, a, m, Reject(false)) || Dropped(s, a, m))
  }

  /** The only steps that take a message out for good. */
  lemma FateStep(s: State, a: Action, m: Msg)
    requires Owned(s) && Enabled(s, a)
    ensures Fate(s, a, m, Apply(s, a))
  {
    match a
    case Broker(b) => BrokerFate(s, b, m);
    case Reconnect(r) =>
    case Consume(ch, c) =>
      assert ConsumerShape(s.rabbit, ch, s.consumers[ch]);
      ConsumerFate(s, ch, c, m);
    case Http(h, p) => HttpFate(s, h, p, m);
    case Sweep(w) => SweepFate(s, w, m);
  }

  lemma BrokerFate(s: State, b: BrokerStep, m: Msg)
    requires BrokerCan(s, b)
    ensures Fate(s, Broker(b), m, BrokerStepped(s, b))
  {
  }

  lemma ConsumerFate(s: State, ch: nat, c: ConsumerStep, m: Msg)
    requires Exclusive(s) && ConsumerCan(s, ch, c) && ConsumerShape(s.rabbit, ch, s.consumers[ch])
    ensures Fate(s, Consume(ch, c), m, ConsumerStepped(s, ch, c))
  {
    if SettlesHeld(c) {
      HandlerFate(s, ch, c, m);
    }
  }

  lemma HandlerFate(s: State, ch: nat, c: ConsumerStep, m: Msg)
    requires Exclusive(s) && ConsumerCan(s, ch, c) && SettlesHeld(c) && StageOf(s, ch).d.channel == ch
    ensures Fate(s, Consume(ch, c), m, ConsumerStepped(s, ch, c))
  {
    if ch == s.rabbit.channel {
      assert Holds(s, Handler) && Held(s, Handler) == StageOf(s, ch).d;
    }
  }

  lemma HttpFate(s: State, h: nat, p: CheckoutStep, m: Msg)
    requires Exclusive(s) && CheckoutCan(s, h, p)
    ensures Fate(s, Http(h, p), m, CheckoutStepped(s, h, p))
  {
    if p.Finish? && CanSettle(s.rabbit, s.checkouts[h].d) {
      assert Holds(s, Pending(h)) && Held(s, Pending(h)) == s.checkouts[h].d;
    }
  }

  lemma SweepFate(s: State, w: SweepStep, m: Msg)
    requires SweepCan(s, w)
    ensures Fate(s, Sweep(w), m, SweepStepped(s, w))
  {
  }

  /** Every other settlement on the open channel - a reschedule, a timeout, a failed trigger - puts the
      message back into the queue. */
  lemma OtherwiseRequeued(s: State, a: Action, m: Msg)
    requires Owned(s) && Enabled(s, a) && s.rabbit.alive
    requires Settler(s, a).Some? && Holds(s, Settler(s, a).value) && Held(s, Settler(s, a).value).msg == m
    requires !Finishes(s, a, m, Acknowledge(false)) && !Finishes(s, a, m, Reject(false)) && !Dropped(s, a, m)
    ensures m in Apply(s, a).rabbit.ready
  {
    WellFormedStep(s, a);
    Settlements(s, a);
    FateStep(s, a, m);
    var d := Held(s, Settler(s, a).value);
    assert d in s.rabbit.unacked;
    RabbitGrows(s, a);
    ExactlyOnePlace(s.rabbit, m);
    ExactlyOnePlace(Apply(s, a).rabbit, m);
    NotOutstandingAfter(s, Apply(s, a), d);
  }

  lemma NotOutstandingAfter(s: State, s': State, d: Delivery)
    requires Consistent(s.rabbit) && d in s.rabbit.unacked && s'.rabbit.unacked <= s.rabbit.unacked - {d}
    ensures d.msg !in Messages(s'.rabbit.unacked)
  {
  }

  lemma RabbitGrows(s: State, a: Action)
    requires Enabled(s, a)
    ensures Grows(s.rabbit, Apply(s, a).rabbit)
  {
    match a
    case Broker(b) =>
    case Reconnect(r) =>
    case Consume(ch, c) => ConsumerGrows(s, ch, c);
    case Http(h, p) => HttpGrows(s, h, p);
    case Sweep(w) => SweepGrows(s, w);
  }

  lemma ConsumerGrows(s: State, ch: nat, c: ConsumerStep)
    requires ConsumerCan(s, ch, c)
    ensures Grows(s.rabbit, ConsumerStepped(s, ch, c).rabbit)
  {
  }

  lemma HttpGrows(s: State, h: nat, p: CheckoutStep)
    requires CheckoutCan(s, h, p)
    ensures Grows(s.rabbit, CheckoutStepped(s, h, p).rabbit)
  {
  }

  lemma SweepGrows(s: State, w: SweepStep)
    requires SweepCan(s, w)
    ensures Grows(s.rabbit, SweepStepped(s, w).rabbit)
  {
  }

  // ---------- why a message is dropped ----------

  /** During the run the handler of `d` met an entry of an older channel under its ID. */
  ghost predicate MetStaleEntry(r: Run, d: Delivery) {
    r.Then? && (MetStaleEntry(r.before, d) || MeetsStaleEntry(End(r.before), r.action, d))
  }

  predicate NoNewDuplicate(s: State, s': State) {
    StageOf(s', s'.rabbit.channel).Duplicate? ==>
      s'.rabbit.channel == s.rabbit.channel && StageOf(s', s.rabbit.channel) == StageOf(s, s.rabbit.channel)
  }

  /** A handler of the latest channel gets into `Duplicate` only by its own check. */
  lemma DuplicateFrom(s: State, a: Action)
    requires Enabled(s, a) && a != Consume(s.rabbit.channel, Register)
    ensures NoNewDuplicate(s, Apply(s, a))
  {
    match a
    case Broker(b) => BrokerNoDuplicate(s, b);
    case Reconnect(r) =>
    case Consume(ch, c) => ConsumerNoDuplicate(s, ch, c);
    case Http(h, p) =>
    case Sweep(w) => SweepNoDuplicate(s, w);
  }

  lemma BrokerNoDuplicate(s: State, b: BrokerStep)
    requires BrokerCan(s, b)
    ensures NoNewDuplicate(s, BrokerStepped(s, b))
  {
  }

  lemma ConsumerNoDuplicate(s: State, ch: nat, c: ConsumerStep)
    requires ConsumerCan(s, ch, c) && !(ch == s.rabbit.channel && c == Register)
    ensures NoNewDuplicate(s, ConsumerStepped(s, ch, c))
  {
  }

  lemma SweepNoDuplicate(s: State, w: SweepStep)
    requires SweepCan(s, w)
    ensures NoNewDuplicate(s, SweepStepped(s, w))
  {
  }

  /** What the handler of the latest channel takes for a duplicate has a namesake, or its check met an
      entry of an older channel. */
  lemma {:induction false} DuplicateForCause(r: Run)
    requires Legal(r) && AllSteps(r, HarmlessIfCurrent)
    requires StageOf(End(r), End(r).rabbit.channel).Duplicate?
    ensures var d := StageOf(End(r), End(r).rabbit.channel).d;
            HasNamesake(End(r).rabbit, d.msg) || MetStaleEntry(r, d)
  {
    match r
    case Then(before, a) =>
      var s := End(before);
      SingleSettlement(before);
      RabbitGrows(s, a);
      var d := StageOf(End(r), End(r).rabbit.channel).d;
      if a == Consume(s.rabbit.channel, Register) {
        if HasNamesake(s.rabbit, d.msg) {
          NamesakesRemain(s.rabbit, End(r).rabbit, d.msg);
        } else {
          DuplicateIffStaleEntry(s);
        }
      } else {
        DuplicateFrom(s, a);
        DuplicateForCause(before);
        if HasNamesake(s.rabbit, d.msg) {
          NamesakesRemain(s.rabbit, End(r).rabbit, d.msg);
        }
      }
  }

  /** The handler drops only what does not parse, what has a namesake, and what met an entry of an
      older channel. */
  lemma DroppedForCause(r: Run, a: Action, m: Msg)
    requires Legal(r) && AllSteps(r, HarmlessIfCurrent) && Dropped(End(r), a, m)
    ensures var s := End(r);
            && m in s.rabbit.bodies
            && (s.rabbit.bodies[m] == Malformed || HasNamesake(s.rabbit, m) || MetStaleEntry(r, StageOf(s, a.ch).d))
  {
    SingleSettlement(r);
    var s := End(r);
    assert ConsumerShape(s.rabbit, a.ch, s.consumers[a.ch]);
    if a.c == DropDuplicate {
      DuplicateForCause(r);
    }
  }

  /** During the run message `m` was discarded by a handler whose check had met an entry of an older
      channel. */
  ghost predicate LostToStaleEntry(r: Run, m: Msg) {
    && r.Then?
    && (|| LostToStaleEntry(r.before, m)
        || (Dropped(End(r.before), r.action, m) && MetStaleEntry(r.before, StageOf(End(r.before), r.action.ch).d)))
  }

  ghost predicate CheckedOut(r: Run, m: Msg, q: Request) {
    r.Then? && (CheckedOut(r.before, m, q) || Finishes(End(r.before), r.action, m, q))
  }

  /** For a parseable message whose ID no other message carries: always in exactly one place;
      acknowledged exactly if a workload acknowledged it, and discarded exactly if a workload rejected
      it, on a channel that was open then, without asking for a reschedule - or if it was lost to an
      entry of an older channel. */
  lemma {:induction false} FateOfUniqueMessage(r: Run, m: Msg)
    requires Legal(r) && AllSteps(r, HarmlessIfCurrent)
    requires m in End(r).rabbit.bodies ==> End(r).rabbit.bodies[m].Event?
    requires !HasNamesake(End(r).rabbit, m)
    ensures m in End(r).rabbit.bodies ==> Places(End(r).rabbit, m) == 1
    ensures m in End(r).rabbit.acked <==> CheckedOut(r, m, Acknowledge(false))
    ensures m in End(r).rabbit.discarded <==> CheckedOut(r, m, Reject(false)) || LostToStaleEntry(r, m)
  {
    SingleSettlement(r);
    ExactlyOnePlace(End(r).rabbit, m);
    match r
    case Start(_) =>
    case Then(before, a) =>
      var s := End(before);
      RabbitGrows(s, a);
      if HasNamesake(s.rabbit, m) {
        NamesakesRemain(s.rabbit, End(r).rabbit, m);
      }
      FateOfUniqueMessage(before, m);
      SingleSettlement(before);
      FateStep(s, a, m);
      if Dropped(s, a, m) {
        DroppedForCause(before, a, m);
      }
  }

  lemma {:induction false} NoStaleEntryUnderA(r: Run, d: Delivery)
    requires Legal(r) && AllSteps(r, NoLateInsert)
    ensures !MetStaleEntry(r, d)
  {
    match r
    case Start(_) =>
    case Then(before, a) =>
      NoStaleEntryUnderA(before, d);
      RunsUnderA(before);
  }

  lemma {:induction false} NothingLostUnderA(r: Run, m: Msg)
    requires Legal(r) && AllSteps(r, NoLateInsert)
    ensures !LostToStaleEntry(r, m)
  {
    match r
    case Start(_) =>
    case Then(before, a) =>
      NothingLostUnderA(before, m);
      if Dropped(End(before), a, m) {
        NoStaleEntryUnderA(before, StageOf(End(before), a.ch).d);
      }
  }

  /** Under (A) such a message is only ever taken out by an acknowledge or a reject. */
  lemma NoMessageLoss(r: Run, m: Msg)
    requires Legal(r) && AllSteps(r, NoLateInsert)
    requires m in End(r).rabbit.bodies ==> End(r).rabbit.bodies[m].Event?
    requires !HasNamesake(End(r).rabbit, m)
    ensures m in End(r).rabbit.bodies ==> Places(End(r).rabbit, m) == 1
    ensures m in End(r).rabbit.acked <==> CheckedOut(r, m, Acknowledge(false))
    ensures m in End(r).rabbit.discarded <==> CheckedOut(r, m, Reject(false))
  {
    RunsUnderA(r);
    FateOfUniqueMessage(r, m);
    NothingLostUnderA(r, m);
  }
}
