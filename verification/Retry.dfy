/** The retry arithmetic: how long to wait before dialing again, and publishing with retries. */
module Retry {

  const MAX_BACKOFF: nat := 30

  function Pow2(n: nat): nat {
    if n == 0 then 1 else 2 * Pow2(n - 1)
  }

  /** Seconds to wait after the `attempt`-th failed dial: one second, doubled each time, capped. */
  function Backoff(attempt: nat): nat {
    if Pow2(attempt) < MAX_BACKOFF then Pow2(attempt) else MAX_BACKOFF
  }

  function Sum(delays: seq<nat>): nat {
    if delays == [] then 0 else Sum(delays[..|delays| - 1]) + delays[|delays| - 1]
  }

  lemma {:induction false} Pow2Grows(n: nat)
    ensures n >= 5 ==> Pow2(n) > MAX_BACKOFF
    ensures Pow2(n) < Pow2(n + 1)
  {
    if n > 0 {
      Pow2Grows(n - 1);
    }
    if n == 5 {
      assert Pow2(5) == 2 * Pow2(4) == 4 * Pow2(3) == 8 * Pow2(2);
    }
  }

  /** Every delay is between 2 and 30 seconds, and none is shorter than the one before. */
  lemma BackoffRange(attempt: nat)
    requires attempt > 0
    ensures 2 <= Backoff(attempt) <= Backoff(attempt + 1) <= MAX_BACKOFF
    ensures attempt >= 5 ==> Backoff(attempt) == MAX_BACKOFF
  {
    Pow2Grows(attempt);
    Pow2Grows(attempt + 1);
    if attempt > 1 {
      BackoffRange(attempt - 1);
    }
  }

  lemma BackoffDoubles(attempt: nat)
    requires attempt > 0
    ensures Backoff(1) == 2
    ensures Backoff(attempt + 1) == if 2 * Backoff(attempt) < 30 then 2 * Backoff(attempt) else 30
  {
    Pow2Grows(attempt);
    assert Pow2(1) == 2 * Pow2(0) && Pow2(attempt + 1) == 2 * Pow2(attempt);
  }

  /** The delays of a dial loop: the first is two seconds, each next one twice the one before, up to 30. */
  ghost predicate DoublingDelays(delays: seq<nat>) {
    && (delays != [] ==> delays[0] == 2)
    && (forall j, k | 0 <= j < k < |delays| && k == j + 1 :: delays[k] == if 2 * delays[j] < 30 then 2 * delays[j] else 30)
  }

  /** The n-th delay of such a loop is the n-th backoff. */
  lemma {:induction false} LastDelay(delays: seq<nat>)
    requires DoublingDelays(delays) && delays != []
    ensures delays[|delays| - 1] == Backoff(|delays|)
  {
    var n := |delays|;
    BackoffDoubles(1);
    if n > 1 {
      LastDelay(delays[..n - 1]);
      BackoffDoubles(n - 1);
    }
  }

  lemma DelayAdded(delays: seq<nat>)
    requires DoublingDelays(delays)
    ensures DoublingDelays(delays + [Backoff(|delays| + 1)])
  {
    BackoffDoubles(1);
    if delays != [] {
      LastDelay(delays);
      BackoffDoubles(|delays|);
    }
  }

  /** The wait after the `attempt`-th failure continues the delays before it. */
  method NextBackoff(attempt: nat, ghost delays: seq<nat>) returns (backoff: nat)
    requires attempt == |delays| + 1 && DoublingDelays(delays)
    ensures DoublingDelays(delays + [backoff])
  {
    backoff := Backoff(attempt);
    DelayAdded(delays);
  }

  /** After n >= 4 failures the loop has waited exactly 30n - 90 seconds. */
  lemma {:induction false} TotalBackoff(delays: seq<nat>)
    requires DoublingDelays(delays) && |delays| >= 4
    ensures Sum(delays) == 30 * |delays| - 90
  {
    var n := |delays|;
    if n == 4 {
      SumOfFour(delays);
    } else {
      TotalBackoff(delays[..n - 1]);
      LastDelay(delays);
      BackoffRange(n);
    }
  }

  lemma SumOfFour(delays: seq<nat>)
    requires |delays| == 4
    ensures Sum(delays) == delays[0] + delays[1] + delays[2] + delays[3]
  {
    assert delays[..3][..2] == delays[..2] && delays[..2][..1] == delays[..1] && delays[..1][..0] == [];
    assert Sum(delays[..1]) == delays[0];
    assert Sum(delays[..2]) == Sum(delays[..1]) + delays[1];
    assert Sum(delays[..3]) == Sum(delays[..2]) + delays[2];
  }

  // ---------- publishing ----------

  /** What one attempt meets: a cancelled context, a usable channel, and the outcome of Publish. */
  datatype Attempt = Attempt(cancelled: bool, up: bool, accepted: bool)

  datatype Published = Ok | ShuttingDown | NotConnected | AllFailed

  /** The sum of the sleeps 1, 2, ..., n - 1. */
  function Triangle(n: int): nat {
    if n <= 1 then 0 else Triangle(n - 1) + n - 1
  }

  lemma {:induction false} TriangleClosed(n: nat)
    ensures 2 * Triangle(n) == n * (n - 1)
  {
    if n > 1 {
      TriangleClosed(n - 1);
      assert n * (n - 1) == (n - 1) * (n - 2) + 2 * (n - 1);
    }
  }

  /** The attempt at `i` publishes, and every attempt up to it found the context alive. */
  predicate FirstSuccess(env: nat -> Attempt, i: nat) {
    && env(i).up && env(i).accepted
    && (forall j: nat :: j <= i ==> !env(j).cancelled)
    && (forall j: nat :: j < i ==> !(env(j).up && env(j).accepted))
  }

  /** `calls` lists what the calls of Publish returned, `slept` is the time spent sleeping. */
  method PublishWithRetry(env: nat -> Attempt, maxRetries: int) returns (r: Published, calls: seq<bool>, slept: nat)
    ensures r == Ok ==> calls != [] && calls[|calls| - 1] && forall k :: 0 <= k < |calls| - 1 ==> !calls[k]
    ensures r != Ok ==> true !in calls
    ensures r == Ok <==> exists i: nat :: i < maxRetries && FirstSuccess(env, i)
    ensures |calls| <= if maxRetries < 0 then 0 else maxRetries
    ensures slept <= Triangle(maxRetries)
    ensures r == ShuttingDown <==> exists i: nat :: i < maxRetries && Interrupted(env, i)
    ensures forall i: nat | i < maxRetries && (FirstSuccess(env, i) || Interrupted(env, i)) :: slept == Triangle(i + 1)
    ensures r == NotConnected ==> maxRetries > 0 && !env(maxRetries - 1).up
    ensures r == AllFailed ==> maxRetries > 0 ==> env(maxRetries - 1).up
    ensures r == NotConnected || r == AllFailed ==> slept == Triangle(maxRetries)
  {
    calls, slept := [], 0;
    var attempt: nat := 0;
    while attempt < maxRetries
      invariant attempt <= maxRetries || attempt == 0
      invariant true !in calls && |calls| <= attempt
      invariant forall j: nat :: j < attempt ==> !env(j).cancelled && !(env(j).up && env(j).accepted)
      invariant slept == Triangle(if attempt < maxRetries then attempt + 1 else attempt)
      invariant 0 < attempt && attempt == maxRetries ==> env(attempt - 1).up
    {
      if env(attempt).cancelled {
        assert Interrupted(env, attempt);
        TriangleGrows(attempt + 1, maxRetries);
        return ShuttingDown, calls, slept;
      }
      if !env(attempt).up {
        if attempt < maxRetries - 1 {
          slept := slept + attempt + 1;
          attempt := attempt + 1;
          continue;
        }
        return NotConnected, calls, slept;
      }
      calls := calls + [env(attempt).accepted];
      if env(attempt).accepted {
        assert FirstSuccess(env, attempt);
        TriangleGrows(attempt + 1, maxRetries);
        return Ok, calls, slept;
      }
      if attempt < maxRetries - 1 {
        slept := slept + attempt + 1;
      }
      attempt := attempt + 1;
    }
    r := AllFailed;
  }

  /** The attempt at `i` finds the context cancelled, and none before it published. */
  predicate Interrupted(env: nat -> Attempt, i: nat) {
    && env(i).cancelled
    && (forall j: nat :: j < i ==> !env(j).cancelled && !(env(j).up && env(j).accepted))
  }

  lemma {:induction false} TriangleGrows(m: int, n: int)
    requires m <= n
    ensures Triangle(m) <= Triangle(n)
    decreases n - m
  {
    if m < n {
      TriangleGrows(m, n - 1);
    }
  }

  /** The sleeps between attempts: one second more each time. */
  predicate LinearDelays(delays: seq<nat>) {
    forall k :: 0 <= k < |delays| ==> delays[k] == k + 1
  }

  lemma {:induction false} LinearSum(delays: seq<nat>)
    requires LinearDelays(delays)
    ensures Sum(delays) == Triangle(|delays| + 1)
  {
    if delays != [] {
      LinearSum(delays[..|delays| - 1]);
    }
  }

  /** Creating channels sleeps at most 15 seconds in its five attempts. */
  lemma ChannelSleeps(delays: seq<nat>)
    requires LinearDelays(delays) && |delays| <= 5
    ensures Sum(delays) <= 15
  {
    LinearSum(delays);
    TriangleGrows(|delays| + 1, 6);
    TriangleClosed(6);
  }

  /** In seconds: publishing with n retries sleeps at most n(n-1)/2, and exactly that long if all fail. */
  lemma SleepBound(maxRetries: nat, slept: nat)
    requires slept <= Triangle(maxRetries)
    ensures 2 * slept <= maxRetries * (maxRetries - 1)
  {
    TriangleClosed(maxRetries);
  }
}
