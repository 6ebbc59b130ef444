/** The per-second send loop of obs-bench/images/log-load-generator/main.go. Time is virtual, in
    milliseconds; how each flush ends and how long it takes is up to the world. */
module SendLoop {

  datatype Flush = Flush(ok: bool, took: nat)

  /** What one second did: lines sent, successful and failed flushes, when the loop stopped, when the
      second was over. Fatal is the exit on an unknown backend. */
  datatype Second = Fatal | Second(sent: nat, flushed: nat, failed: nat, stopped: nat, end: nat)

  predicate KnownBackend(backend: string) { backend == "loki" || backend == "opensearch" }

  /** The batch size before it is cut to what is left of the second's quota: a tenth of the rate, but at least
      one line and at most five hundred. */
  function FullBatch(lps: nat): (b: nat)
    ensures lps < 10 ==> b == 1
    ensures 10 <= lps <= 5000 ==> 10 * b <= lps < 10 * b + 10
    ensures lps > 5000 ==> b == 500
  {
    if lps / 10 < 1 then 1 else if lps / 10 > 500 then 500 else lps / 10
  }

  function Min(a: nat, b: nat): nat { if a < b then a else b }

  function CeilDiv(a: nat, b: nat): nat
    requires b > 0
  {
    (a + b - 1) / b
  }

  function MaxFlushes(lps: nat): nat {
    if CeilDiv(lps, 500) < 19 then 19 else CeilDiv(lps, 500)
  }

  /** How many of the first n flushes succeed. */
  function Successes(world: nat -> Flush, n: nat): nat {
    if n == 0 then 0 else Successes(world, n - 1) + if world(n - 1).ok then 1 else 0
  }

  /** When flush number n is over, n counted from one: every flush takes its time, and a failed one costs fifty
      milliseconds more. */
  function Clock(world: nat -> Flush, start: nat, n: nat): nat {
    if n == 0 then start
    else Clock(world, start, n - 1) + world(n - 1).took + if world(n - 1).ok then 0 else 50
  }

  /** The lines sent by a number of successful flushes: full batches, up to the quota. */
  function SentAfter(lps: nat, flushed: nat): nat {
    Min(lps, flushed * FullBatch(lps))
  }

  lemma SentStep(lps: nat, flushed: nat)
    ensures SentAfter(lps, 0) == 0
    ensures SentAfter(lps, flushed) < lps ==>
      && flushed * FullBatch(lps) < lps
      && SentAfter(lps, flushed + 1) == Min(lps, SentAfter(lps, flushed) + FullBatch(lps))
  {
    assert (flushed + 1) * FullBatch(lps) == flushed * FullBatch(lps) + FullBatch(lps);
  }

  lemma FlushCount(lps: nat, flushed: nat)
    requires flushed > 0 ==> SentAfter(lps, flushed - 1) < lps
    ensures flushed <= MaxFlushes(lps)
  {
    var b := FullBatch(lps);
    if flushed > 0 {
      SentStep(lps, flushed - 1);
    }
    if b < 500 {
      if flushed >= 20 {
        MultiplyLeast(19, flushed - 1, b);
        assert false;
      }
    }
  }

  /** The bound on the flushes, spelt out. */
  lemma CeilingAtMost(lps: nat, flushed: nat)
    ensures flushed <= MaxFlushes(lps) ==> flushed <= 19 || 500 * (flushed - 1) < lps
  {
  }

  lemma MultiplyLeast(a: nat, c: nat, b: nat)
    requires a <= c
    ensures a * b <= c * b
  {
  }

  /** Every batch starts before the second is over and the quota is met, and is full unless less is left of the
      quota. */
  ghost predicate Batched(lps: nat, start: nat, world: nat -> Flush, batches: seq<nat>) {
    forall i :: 0 <= i < |batches| ==>
      && Clock(world, start, i) < start + 1000 && SentAfter(lps, Successes(world, i)) < lps
      && batches[i] == Min(FullBatch(lps), lps - SentAfter(lps, Successes(world, i))) >= 1
  }

  lemma BatchStep(lps: nat, start: nat, world: nat -> Flush, batches: seq<nat>, sent: nat)
    requires Batched(lps, start, world, batches) && Clock(world, start, |batches|) < start + 1000
    requires sent == SentAfter(lps, Successes(world, |batches|)) < lps
    ensures Batched(lps, start, world, batches + [Min(FullBatch(lps), lps - sent)])
    ensures Successes(world, |batches| + 1) == Successes(world, |batches|) + if world(|batches|).ok then 1 else 0
    ensures Clock(world, start, |batches| + 1)
      == Clock(world, start, |batches|) + world(|batches|).took + if world(|batches|).ok then 0 else 50
  {
    hide Clock, Successes, SentAfter;
    ClockStep(world, start, |batches|);
  }

  lemma ClockStep(world: nat -> Flush, start: nat, n: nat)
    ensures Successes(world, n + 1) == Successes(world, n) + if world(n).ok then 1 else 0
    ensures Clock(world, start, n + 1) == Clock(world, start, n) + world(n).took + if world(n).ok then 0 else 50
    ensures Successes(world, 0) == 0 && Clock(world, start, 0) == start
  {
  }

  lemma NoBatches(lps: nat, start: nat, world: nat -> Flush)
    ensures Batched(lps, start, world, [])
  {
  }

  /** The batch as the loop computes it. */
  lemma BatchSize(lps: nat)
    ensures FullBatch(lps) == if lps / 10 < 1 then 1 else if lps / 10 > 500 then 500 else lps / 10
  {
  }

  /** The quota is never exceeded, the lines sent are determined by the number of successful flushes, both
      kinds of flush are bounded, and the loop gives up early only when the quota is met. */
  method SendSecond(backend: string, lps: nat, start: nat, world: nat -> Flush) returns (r: Second, batches: seq<nat>)
    requires lps >= 1
    ensures r == Fatal <==> backend != "loki" && backend != "opensearch"
    ensures r == Fatal ==> batches == []
    ensures Batched(lps, start, world, batches)
    ensures r != Fatal ==>
      && r.flushed == Successes(world, |batches|) && r.flushed + r.failed == |batches|
      && r.sent == SentAfter(lps, r.flushed) <= lps
      && r.stopped == Clock(world, start, |batches|)
      && r.end == (if r.stopped < start + 1000 then start + 1000 else r.stopped)
    ensures r != Fatal ==> r.sent == lps || r.stopped >= start + 1000
    ensures r != Fatal ==> (r.flushed <= 19 || 500 * (r.flushed - 1) < lps) && r.failed <= 20
    ensures r != Fatal && Instant(world) ==>
      r.sent == lps && r.failed == 0 && r.stopped == start
  {
    hide SentAfter, MaxFlushes, Clock, Successes, Batched, FullBatch;
    SentStep(lps, 0);
    BatchSize(lps);
    ClockStep(world, start, 0);
    assert Batched(lps, start, world, []) by { NoBatches(lps, start, world); }
    var now := start;
    var deadline := start + 1000;
    var sent, flushed, failed := 0, 0, 0;
    batches := [];
    while sent < lps && now < deadline
      invariant |batches| == flushed + failed && flushed == Successes(world, |batches|)
      invariant now == Clock(world, start, |batches|)
      invariant Batched(lps, start, world, batches)
      invariant start + 50 * failed <= now
      invariant failed <= 20 && (flushed > 0 ==> SentAfter(lps, flushed - 1) < lps)
      invariant sent == SentAfter(lps, flushed) <= lps
      invariant if flushed + failed == 0 then now == start else KnownBackend(backend)
      invariant Instant(world) ==> failed == 0 && now == start
      decreases lps - sent, if now < deadline then deadline - now else 0
    {
      var batch := lps / 10;
      if batch < 1 {
        batch := 1;
      }
      if batch > 500 {
        batch := 500;
      }
      if sent + batch > lps {
        batch := lps - sent;
      }
      if !KnownBackend(backend) {
        return Fatal, batches;
      }
      BatchStep(lps, start, world, batches, sent);
      batches := batches + [batch];
      var f := world(flushed + failed);
      now := now + f.took;
      if !f.ok {
        now := now + 50;
        failed := failed + 1;
        continue;
      }
      sent := sent + batch;
      SentStep(lps, flushed);
      flushed := flushed + 1;
    }
    FlushCount(lps, flushed);
    CeilingAtMost(lps, flushed);
    r := Second(sent, flushed, failed, now, if now < deadline then deadline else now);
  }

  function TotalSent(seconds: seq<Second>): nat
    requires forall r :: r in seconds ==> r.Second?
  {
    if |seconds| == 0 then 0 else TotalSent(seconds[..|seconds| - 1]) + seconds[|seconds| - 1].sent
  }

  lemma TotalStep(seconds: seq<Second>, r: Second)
    requires r.Second? && forall s :: s in seconds ==> s.Second?
    ensures TotalSent(seconds + [r]) == TotalSent(seconds) + r.sent
  {
    assert (seconds + [r])[..|seconds|] == seconds;
  }

  ghost predicate Instant(world: nat -> Flush) {
    forall k :: world(k).ok && world(k).took == 0
  }

  /** Over any number of seconds the average rate stays within the requested one, and it is the requested one
      when every flush succeeds at once. */
  method Run(backend: string, lps: nat, start: nat, worlds: seq<nat -> Flush>)
    returns (seconds: seq<Second>, total: nat, end: nat)
    requires lps >= 1 && KnownBackend(backend)
    ensures |seconds| == |worlds| && forall r :: r in seconds ==> r.Second?
    ensures total == TotalSent(seconds) <= |worlds| * lps
    ensures end == if |worlds| == 0 then start else seconds[|worlds| - 1].end
    ensures end >= start + 1000 * |worlds|
    ensures 1000 * total <= lps * (end - start)
    ensures (forall i :: 0 <= i < |worlds| ==> Instant(worlds[i])) ==>
      total == |worlds| * lps && end == start + 1000 * |worlds|
  {
    hide SentAfter, MaxFlushes, Batched, Clock, Successes, FullBatch, TotalSent;
    seconds, total, end := [], 0, start;
    assert TotalSent([]) == 0 by { NothingSent(); }
    for i := 0 to |worlds|
      invariant |seconds| == i && forall r :: r in seconds ==> r.Second?
      invariant total == TotalSent(seconds) <= i * lps
      invariant end == if i == 0 then start else seconds[i - 1].end
      invariant end >= start + 1000 * i
      invariant (forall j :: 0 <= j < i ==> Instant(worlds[j])) ==> total == i * lps && end == start + 1000 * i
    {
      var r, _ := SendSecond(backend, lps, end, worlds[i]);
      assert (i + 1) * lps == i * lps + lps;
      TotalStep(seconds, r);
      seconds, total, end := seconds + [r], total + r.sent, r.end;
    }
    RateBound(total, |worlds|, lps, end - start);
  }

  lemma NothingSent()
    ensures TotalSent([]) == 0
  {
  }

  lemma RateBound(total: nat, seconds: nat, lps: nat, elapsed: nat)
    requires total <= seconds * lps && 1000 * seconds <= elapsed
    ensures 1000 * total <= lps * elapsed
  {
    MultiplyLeast(1000 * seconds, elapsed, lps);
    assert 1000 * seconds * lps == 1000 * (seconds * lps);
  }
}
