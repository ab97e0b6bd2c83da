/**
  Accounting for manifest entries over whole runs: where every recorded entry went, and how old an
  entry can get.  Nothing here needs a side condition on reconnects.
*/
module DeliveryAccounting {
  import opened Options
  import opened Runs
  import opened DeliveryProtocol
  import opened DeliveryOwnership

  lemma {:induction false} RunsAreWellFormed(r: Run)
    requires Legal(r)
    ensures WellFormed(End(r))
  {
    match r
    case Start(s) => InitialOwnership(s);
    case Then(before, a) =>
      RunsAreWellFormed(before);
      WellFormedStep(End(before), a);
  }

  // ---------- per event ID ----------

  /** What can happen to the entry of an event ID. */
  datatype Event = Recorded | CheckedOut | TimedOut | TakenBack | CleanedUp

  predicate Happens(s: State, a: Action, e: Event, id: string) {
    match e
    case Recorded =>
      a.Consume? && a.c == Register && StageOf(s, a.ch).Received? && IdOf(s, StageOf(s, a.ch).d) == id && id !in s.jobs
    case CheckedOut => a.Http? && a.p.Take? && a.p.id == id && id in s.jobs
    case TimedOut => a == Sweep(Delete) && s.lock.Sweeping? && s.lock.nacked == Some(id)
    case TakenBack =>
      a.Consume? && a.c == Withdraw && StageOf(s, a.ch).TriggerFailed? && IdOf(s, StageOf(s, a.ch).d) == id && id in s.jobs
    case CleanedUp => a == Reconnect(Cleanup) && id in s.jobs
  }

  function Bit(b: bool): nat {
    if b then 1 else 0
  }

  /** How often an event happened to an ID during a run. */
  ghost function Count(r: Run, e: Event, id: string): nat {
    match r
    case Start(_) => 0
    case Then(before, a) => Count(before, e, id) + Bit(Happens(End(before), a, e, id))
  }

  ghost function Departures(r: Run, id: string): nat {
    Count(r, CheckedOut, id) + Count(r, TimedOut, id) + Count(r, TakenBack, id) + Count(r, CleanedUp, id)
  }

  lemma AccountingStep(s: State, a: Action, id: string)
    requires LockShape(s.jobs, s.lock) && Enabled(s, a)
    ensures Bit(id in s.jobs) + Bit(Happens(s, a, Recorded, id)) ==
            Bit(id in Apply(s, a).jobs) + Bit(Happens(s, a, CheckedOut, id)) + Bit(Happens(s, a, TimedOut, id))
            + Bit(Happens(s, a, TakenBack, id)) + Bit(Happens(s, a, CleanedUp, id))
  {
    match a
    case Broker(b) =>
    case Reconnect(r) =>
    case Consume(ch, c) =>
    case Http(h, p) =>
    case Sweep(w) =>
  }

  /** Every entry ever recorded under an ID was checked out, timed out, taken back after a failed
      trigger, cleaned up by a reconnect, or is still there. */
  lemma {:induction false} PerIdAccounting(r: Run, id: string)
    requires Legal(r)
    ensures Count(r, Recorded, id) == Departures(r, id) + Bit(id in End(r).jobs)
  {
    match r
    case Start(s) =>
    case Then(before, a) =>
      PerIdAccounting(before, id);
      RunsAreWellFormed(before);
      AccountingStep(End(before), a, id);
  }

  lemma {:induction false} CountsOnlyGrow(r0: Run, r: Run, e: Event, id: string)
    requires Extends(r, r0)
    ensures Count(r0, e, id) <= Count(r, e, id)
  {
    if r != r0 {
      CountsOnlyGrow(r0, r.before, e, id);
    }
  }

  /** Once an ID is out of the manifest, a further accepted checkout of it needs a further insert:
      one insert never yields two accepted checkouts. */
  lemma OneCheckoutPerInsert(r0: Run, r: Run, id: string)
    requires Legal(r0) && Legal(r) && Extends(r, r0) && id !in End(r0).jobs
    ensures Count(r, CheckedOut, id) - Count(r0, CheckedOut, id) <= Count(r, Recorded, id) - Count(r0, Recorded, id)
  {
    PerIdAccounting(r0, id);
    PerIdAccounting(r, id);
    CountsOnlyGrow(r0, r, TimedOut, id);
    CountsOnlyGrow(r0, r, TakenBack, id);
    CountsOnlyGrow(r0, r, CleanedUp, id);
  }

  // ---------- the metrics ----------

  /** How many entries the reconnect cleanups removed; those are not counted as deleted. */
  ghost function Cleaned(r: Run): nat {
    match r
    case Start(_) => 0
    case Then(before, a) => Cleaned(before) + if a == Reconnect(Cleanup) then |End(before).jobs| else 0
  }

  /** Inserted less deleted less present: what the cleanups account for. */
  function Unaccounted(s: State): int {
    s.inserted - s.deleted - |s.jobs|
  }

  lemma MetricsStep(s: State, a: Action)
    requires LockShape(s.jobs, s.lock) && Enabled(s, a)
    ensures Unaccounted(Apply(s, a)) == Unaccounted(s) + if a == Reconnect(Cleanup) then |s.jobs| else 0
  {
    match a
    case Broker(b) => BrokerMetrics(s, b);
    case Reconnect(r) => ReconnectMetrics(s, r);
    case Consume(ch, c) => ConsumerMetrics(s, ch, c);
    case Http(h, p) => HttpMetrics(s, h, p);
    case Sweep(w) => SweepMetrics(s, w);
  }

  lemma BrokerMetrics(s: State, b: BrokerStep)
    requires BrokerCan(s, b)
    ensures Unaccounted(BrokerStepped(s, b)) == Unaccounted(s)
  {
  }

  lemma ReconnectMetrics(s: State, r: ReconnectStep)
    requires ReconnectCan(s, r)
    ensures Unaccounted(ReconnectStepped(s, r)) == Unaccounted(s) + if r == Cleanup then |s.jobs| else 0
  {
  }

  lemma HttpMetrics(s: State, h: nat, p: CheckoutStep)
    requires CheckoutCan(s, h, p)
    ensures Unaccounted(CheckoutStepped(s, h, p)) == Unaccounted(s)
  {
    if p.Take? { RemovedSize(s.jobs, p.id); }
  }

  lemma ConsumerMetrics(s: State, ch: nat, c: ConsumerStep)
    requires ConsumerCan(s, ch, c)
    ensures Unaccounted(ConsumerStepped(s, ch, c)) == Unaccounted(s)
  {
    if c == Withdraw { RemovedSize(s.jobs, IdOf(s, StageOf(s, ch).d)); }
  }

  lemma SweepMetrics(s: State, w: SweepStep)
    requires LockShape(s.jobs, s.lock) && SweepCan(s, w)
    ensures Unaccounted(SweepStepped(s, w)) == Unaccounted(s)
  {
    if w.Delete? { RemovedSize(s.jobs, s.lock.nacked.value); }
  }

  lemma RemovedSize<K, V>(m: map<K, V>, k: K)
    ensures |m - {k}| == |m| - if k in m then 1 else 0
  {
    assert (m - {k}).Keys == m.Keys - {k};
    assert |m - {k}| == |(m - {k}).Keys| && |m| == |m.Keys|;
  }

  /** amps_messages_inserted_total = amps_messages_deleted_total + cleaned + size. */
  lemma {:induction false} MetricsBalance(r: Run)
    requires Legal(r)
    ensures End(r).inserted == End(r).deleted + Cleaned(r) + |End(r).jobs|
  {
    match r
    case Start(s) =>
    case Then(before, a) =>
      MetricsBalance(before);
      RunsAreWellFormed(before);
      MetricsStep(End(before), a);
  }

  /** A message is recorded by this step. */
  predicate Inserts(s: State, a: Action) {
    a.Consume? && a.c == Register && StageOf(s, a.ch).Received? && IdOf(s, StageOf(s, a.ch).d) !in s.jobs
  }

  /** An entry is checked out, timed out or taken back by this step. */
  predicate Deletes(s: State, a: Action) {
    || (a.Http? && a.p.Take? && a.p.id in s.jobs)
    || a == Sweep(Delete)
    || (a.Consume? && a.c == Withdraw && StageOf(s, a.ch).TriggerFailed? && IdOf(s, StageOf(s, a.ch).d) in s.jobs)
  }

  ghost function InsertCount(r: Run): nat {
    match r
    case Start(_) => 0
    case Then(before, a) => InsertCount(before) + Bit(Inserts(End(before), a))
  }

  ghost function DeleteCount(r: Run): nat {
    match r
    case Start(_) => 0
    case Then(before, a) => DeleteCount(before) + Bit(Deletes(End(before), a))
  }

  ghost predicate Counted(s: State, a: Action, s': State) {
    s'.inserted == s.inserted + Bit(Inserts(s, a)) && s'.deleted == s.deleted + Bit(Deletes(s, a))
  }

  lemma CountersStep(s: State, a: Action)
    requires Enabled(s, a)
    ensures Counted(s, a, Apply(s, a))
  {
    match a
    case Broker(b) =>
    case Reconnect(r) =>
    case Consume(ch, c) => ConsumerCounts(s, ch, c);
    case Http(h, p) => HttpCounts(s, h, p);
    case Sweep(w) => SweepCounts(s, w);
  }

  lemma ConsumerCounts(s: State, ch: nat, c: ConsumerStep)
    requires ConsumerCan(s, ch, c)
    ensures Counted(s, Consume(ch, c), ConsumerStepped(s, ch, c))
  {
  }

  lemma HttpCounts(s: State, h: nat, p: CheckoutStep)
    requires CheckoutCan(s, h, p)
    ensures Counted(s, Http(h, p), CheckoutStepped(s, h, p))
  {
  }

  lemma SweepCounts(s: State, w: SweepStep)
    requires SweepCan(s, w)
    ensures Counted(s, Sweep(w), SweepStepped(s, w))
  {
  }

  /** Each counter counts exactly its events. */
  lemma {:induction false} CountersCountEvents(r: Run)
    requires Legal(r)
    ensures End(r).inserted == InsertCount(r) && End(r).deleted == DeleteCount(r)
  {
    match r
    case Start(s) =>
    case Then(before, a) =>
      CountersCountEvents(before);
      CountersStep(End(before), a);
  }

  // ---------- when an entry was recorded ----------

  /** The time at which the latest entry under an ID was recorded. */
  ghost function RecordedAt(r: Run, id: string): nat {
    match r
    case Start(_) => 0
    case Then(before, a) => if Happens(End(before), a, Recorded, id) then End(before).now else RecordedAt(before, id)
  }

  /** An entry is new and stamped with the time, or is as it was. */
  ghost predicate Stamped(s: State, a: Action, s': State, id: string) {
    id in s'.jobs ==>
      if Happens(s, a, Recorded, id) then s'.jobs[id].created == s.now else id in s.jobs && s'.jobs[id] == s.jobs[id]
  }

  lemma StampedStep(s: State, a: Action, id: string)
    requires Enabled(s, a)
    ensures Stamped(s, a, Apply(s, a), id)
  {
    match a
    case Broker(b) =>
    case Reconnect(r) =>
    case Consume(ch, c) => ConsumerStamps(s, ch, c, id);
    case Http(h, p) => HttpStamps(s, h, p, id);
    case Sweep(w) => SweepStamps(s, w, id);
  }

  lemma ConsumerStamps(s: State, ch: nat, c: ConsumerStep, id: string)
    requires ConsumerCan(s, ch, c)
    ensures Stamped(s, Consume(ch, c), ConsumerStepped(s, ch, c), id)
  {
  }

  lemma HttpStamps(s: State, h: nat, p: CheckoutStep, id: string)
    requires CheckoutCan(s, h, p)
    ensures Stamped(s, Http(h, p), CheckoutStepped(s, h, p), id)
  {
  }

  lemma SweepStamps(s: State, w: SweepStep, id: string)
    requires SweepCan(s, w)
    ensures Stamped(s, Sweep(w), SweepStepped(s, w), id)
  {
  }

  /** An entry carries the time at which it was recorded. */
  lemma {:induction false} CreatedWhenRecorded(r: Run, id: string)
    requires Legal(r) && id in End(r).jobs
    ensures End(r).jobs[id].created == RecordedAt(r, id)
  {
    match r
    case Start(s) =>
    case Then(before, a) =>
      StampedStep(End(before), a, id);
      if !Happens(End(before), a, Recorded, id) {
        CreatedWhenRecorded(before, id);
      }
  }

  /** A sweep that looks at an entry requeues it exactly if it was recorded more than JobTimeout ago. */
  lemma RequeuedIffOverdue(r: Run, id: string)
    requires Legal(r) && SweepCan(End(r), Visit(id))
    ensures SweepStepped(End(r), Visit(id)).lock.nacked == Some(id)
            <==> End(r).now - RecordedAt(r, id) > Beginning(r).jobTimeout
  {
    CreatedWhenRecorded(r, id);
    ConfigurationIsFixed(r);
  }

  // ---------- age of entries ----------

  /** When the latest sweep started; before the first one, when the process did. */
  ghost function LatestSweep(r: Run): nat {
    match r
    case Start(s) => s.now
    case Then(before, a) => if a == Sweep(Begin) then End(before).now else LatestSweep(before)
  }

  lemma SweepTimeStep(s: State, a: Action)
    requires Enabled(s, a)
    ensures Apply(s, a).sweepStart == if a == Sweep(Begin) then s.now else s.sweepStart
  {
    match a
    case Broker(b) =>
    case Reconnect(r) =>
    case Consume(ch, c) => ConsumerKeepsSweepTime(s, ch, c);
    case Http(h, p) =>
    case Sweep(w) =>
  }

  lemma ConsumerKeepsSweepTime(s: State, ch: nat, c: ConsumerStep)
    requires ConsumerCan(s, ch, c)
    ensures ConsumerStepped(s, ch, c).sweepStart == s.sweepStart
  {
  }

  lemma {:induction false} SweepTimes(r: Run)
    requires Legal(r)
    ensures End(r).sweepStart == LatestSweep(r)
  {
    match r
    case Start(s) =>
    case Then(before, a) =>
      SweepTimes(before);
      SweepTimeStep(End(before), a);
  }

  /** Entries the latest sweep is done with were not expired when it took the lock. */
  ghost predicate Swept(s: State) {
    && s.sweepStart <= s.now
    && (forall id <- s.jobs :: s.jobs[id].created <= s.now)
    && (forall id <- s.jobs ::
          (s.lock.Sweeping? ==> id !in s.lock.todo) ==> s.sweepStart - s.jobs[id].created <= s.jobTimeout)
  }

  lemma SweptStep(s: State, a: Action)
    requires LockShape(s.jobs, s.lock) && Swept(s) && Enabled(s, a) && s.jobTimeout > 0
    ensures Swept(Apply(s, a)) && Apply(s, a).jobTimeout == s.jobTimeout
  {
    match a
    case Broker(b) =>
    case Reconnect(r) =>
    case Consume(ch, c) => ConsumerKeepsSwept(s, ch, c);
    case Http(h, p) =>
    case Sweep(w) => SweepKeepsSwept(s, w);
  }

  lemma ConsumerKeepsSwept(s: State, ch: nat, c: ConsumerStep)
    requires Swept(s) && ConsumerCan(s, ch, c) && s.jobTimeout > 0
    ensures Swept(ConsumerStepped(s, ch, c)) && ConsumerStepped(s, ch, c).jobTimeout == s.jobTimeout
  {
  }

  lemma SweepKeepsSwept(s: State, w: SweepStep)
    requires LockShape(s.jobs, s.lock) && Swept(s) && SweepCan(s, w)
    ensures Swept(SweepStepped(s, w)) && SweepStepped(s, w).jobTimeout == s.jobTimeout
  {
  }

  lemma {:induction false} RunsAreSwept(r: Run)
    requires Legal(r) && End(r).jobTimeout > 0
    ensures Swept(End(r))
  {
    match r
    case Start(s) =>
    case Then(before, a) =>
      assert End(before).jobTimeout == End(r).jobTimeout;
      RunsAreSwept(before);
      RunsAreWellFormed(before);
      SweptStep(End(before), a);
  }

  /** If a sweep has started within the last `d` time units, no entry seen while the lock is free was
      recorded longer ago than JobTimeout plus `d`. */
  lemma TimeoutBound(r: Run, d: nat)
    requires Legal(r) && Beginning(r).jobTimeout > 0
    requires End(r).lock == Free && End(r).now - LatestSweep(r) <= d
    ensures forall id <- End(r).jobs :: End(r).now - RecordedAt(r, id) <= Beginning(r).jobTimeout + d
  {
    ConfigurationIsFixed(r);
    RunsAreSwept(r);
    SweepTimes(r);
    forall id <- End(r).jobs ensures End(r).jobs[id].created == RecordedAt(r, id) {
      CreatedWhenRecorded(r, id);
    }
  }
}
