/** Waiting for the query API with a growing backoff: `waitForQueryAPI` of
    obs-bench/internal/services/experimentworkload/workload.go. Time is virtual, in milliseconds. */
module QueryWait {

  datatype Reply = Ready | Transient | Permanent

  /** How the world answers one round: was the context cancelled before the query or during the wait,
      what did the query return, how long did it take, and how late did the timer fire. */
  datatype Round = Round(cancelledBefore: bool, reply: Reply, took: nat, cancelledInWait: bool, late: nat)

  datatype Outcome = Nil | Cancelled | Failed | TimedOut(sawError: bool)

  /** The wait after query number k, counted from zero. */
  function Backoff(k: nat): (b: nat)
    ensures 500 <= b <= 2000 && b % 250 == 0
  {
    if 500 + 250 * k < 2000 then 500 + 250 * k else 2000
  }

  lemma BackoffStep(k: nat)
    ensures Backoff(0) == 500
    ensures Backoff(k + 1) == if Backoff(k) < 2000 then Backoff(k) + 250 else Backoff(k)
  {
  }

  /** The sum of the first k waits. */
  function WaitSum(k: nat): nat {
    if k == 0 then 0 else WaitSum(k - 1) + Backoff(k - 1)
  }

  lemma WaitSumStep(k: nat)
    ensures WaitSum(0) == 0 && WaitSum(k + 1) == WaitSum(k) + Backoff(k)
  {
  }

  lemma {:induction false} WaitSumClosedForm(k: nat)
    ensures WaitSum(k) == if k <= 6 then 500 * k + 125 * k * (k - 1) else 6750 + 2000 * (k - 6)
  {
    if k > 0 {
      WaitSumClosedForm(k - 1);
      WaitSumStep(k - 1);
      hide WaitSum;
      if k <= 6 {
        assert k * (k - 1) == (k - 1) * (k - 2) + 2 * (k - 1);
      }
    }
  }

  lemma {:induction false} WaitSumIncreasing(j: nat, k: nat)
    requires j <= k
    ensures WaitSum(j) + 500 * (k - j) <= WaitSum(k)
    decreases k
  {
    if j < k {
      WaitSumIncreasing(j, k - 1);
    }
  }

  /** The round asks to go on: nothing cancelled, and a transient error. */
  ghost predicate Retries(r: Round) {
    !r.cancelledBefore && r.reply == Transient && !r.cancelledInWait
  }

  ghost predicate Prompt(r: Round) {
    r.took == 0 && r.late == 0
  }

  /** When query number k starts, if there is one: every query takes its time and is followed by a wait. */
  function Clock(world: nat -> Round, start: nat, k: nat): nat {
    if k == 0 then start
    else Clock(world, start, k - 1) + world(k - 1).took + Backoff(k - 1) + world(k - 1).late
  }

  lemma ClockStep(world: nat -> Round, start: nat, k: nat)
    ensures Clock(world, start, 0) == start
    ensures Clock(world, start, k + 1) == Clock(world, start, k) + world(k).took + Backoff(k) + world(k).late
  {
  }

  /** Query number k starts before the deadline, with the context still alive. */
  ghost predicate StartsInTime(world: nat -> Round, start: nat, timeout: int, k: nat) {
    Clock(world, start, k) < start + timeout && !world(k).cancelledBefore
  }

  /** Every query but the last met a transient error, and query number n starts only while the n - 1 waits
      before it fit into the timeout. */
  method WaitForQueryAPI(world: nat -> Round, timeout: int, start: nat)
    returns (o: Outcome, queries: nat, end: nat)
    ensures forall k :: 0 <= k < queries - 1 ==> Retries(world(k))
    ensures queries > 0 ==> WaitSum(queries - 1) < timeout
    ensures o == Nil <==> queries > 0 && !world(queries - 1).cancelledBefore && world(queries - 1).reply == Ready
    ensures o == Failed <==> queries > 0 && !world(queries - 1).cancelledBefore && world(queries - 1).reply == Permanent
    ensures o == Cancelled ==>
      || (world(queries).cancelledBefore && (queries > 0 ==> Retries(world(queries - 1))))
      || (queries > 0 && world(queries - 1).reply == Transient && world(queries - 1).cancelledInWait)
    ensures forall k :: 0 <= k < queries ==> StartsInTime(world, start, timeout, k)
    ensures o == Nil || o == Failed ==> end == Clock(world, start, queries - 1) + world(queries - 1).took
    ensures o == Cancelled && queries > 0 && !Retries(world(queries - 1)) ==>
      end == Clock(world, start, queries - 1) + world(queries - 1).took
    ensures o == Cancelled && (queries > 0 ==> Retries(world(queries - 1))) ==>
      end == Clock(world, start, queries) < start + timeout
    ensures o.TimedOut? ==> end == Clock(world, start, queries) >= start + timeout && (o.sawError <==> queries > 0)
    ensures o.TimedOut? ==> forall k :: 0 <= k < queries ==> Retries(world(k))
    ensures o.TimedOut? && (forall k :: 0 <= k < queries ==> Prompt(world(k))) ==> end == start + WaitSum(queries)
  {
    hide WaitSum, Backoff, Clock;
    ClockStep(world, start, 0);
    WaitSumStep(0);
    BackoffStep(0);
    var deadline := start + timeout;
    var now := start;
    var backoff := 500;
    var lastErr := false;
    queries := 0;
    while now < deadline
      invariant backoff == Backoff(queries)
      invariant start + WaitSum(queries) <= now
      invariant queries > 0 ==> WaitSum(queries - 1) < timeout
      invariant lastErr <==> queries > 0
      invariant now == Clock(world, start, queries)
      invariant forall k :: 0 <= k < queries ==> StartsInTime(world, start, timeout, k)
      invariant forall k :: 0 <= k < queries ==> Retries(world(k))
      invariant (forall k :: 0 <= k < queries ==> Prompt(world(k))) ==> now == start + WaitSum(queries)
      decreases deadline - now
    {
      var r := world(queries);
      if r.cancelledBefore {
        return Cancelled, queries, now;
      }
      WaitSumStep(queries);
      ClockStep(world, start, queries);
      BackoffStep(queries);
      queries := queries + 1;
      now := now + r.took;
      if r.reply == Ready {
        return Nil, queries, now;
      }
      lastErr := true;
      if r.reply == Permanent {
        return Failed, queries, now;
      }
      if r.cancelledInWait {
        return Cancelled, queries, now;
      }
      now := now + backoff + r.late;
      assert Prompt(r) ==> Prompt(world(queries - 1));
      if backoff < 2000 {
        backoff := backoff + 250;
      }
    }
    o, end := TimedOut(lastErr), now;
  }

  /** For any timeout: no more queries than the first count whose waits reach it. */
  lemma QueriesBound(timeout: int, queries: nat, n: nat)
    requires queries > 0 ==> WaitSum(queries - 1) < timeout
    requires timeout <= WaitSum(n)
    ensures queries <= n
  {
    if queries > n {
      WaitSumIncreasing(n, queries - 1);
      assert false;
    }
  }

  /** The 90 seconds of runQueryLoad allow 48 queries, and a world that always answers at once with a
      transient error uses all of them. */
  lemma NinetySeconds(queries: nat)
    requires queries > 0 ==> WaitSum(queries - 1) < 90_000
    ensures queries <= 48
    ensures 90_000 <= WaitSum(queries) ==> queries == 48
  {
    WaitSumClosedForm(48);
    WaitSumClosedForm(47);
    QueriesBound(90_000, queries, 48);
    if queries < 48 {
      WaitSumIncreasing(queries, 47);
    }
  }
}
