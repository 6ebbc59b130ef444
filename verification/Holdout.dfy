/** Leave-one-out validation: `mape` and `validateHoldout` of obs-advisor/server/capacitymodel/model.go. */
module Holdout {
  import opened Collections
  import opened Sorting
  import opened LeastSquares
  import opened Interpolation
  import opened PowerLaw
  import opened CapacityModel
  import opened CapacityTheorems

  function Mape(yTrue: real, yPred: real): real {
    if yTrue <= 0.0 then 0.0 else Abs(yTrue - yPred) / yTrue
  }

  /** The relative error at a test row of the model trained on the given rows. Each resource is predicted
      for the period it was measured over. */
  function ErrorOf(m: MathLib, train: seq<Row>, test: Row, key: ResourceKey): real {
    Mape(KeyVal(test, key), Estimate(m, train, test.loadValue, PeriodForKey(test, key), key))
  }

  /** The sum of the errors of the first n leave-one-out rounds. */
  function ErrorSum(m: MathLib, rows: seq<Row>, key: ResourceKey, n: nat): real
    requires n <= |rows|
  {
    if n == 0 then 0.0 else ErrorSum(m, rows, key, n - 1) + ErrorOf(m, Without(rows, n - 1), rows[n - 1], key)
  }

  /** The mean leave-one-out error; None is the "not available" of fewer than three rows. */
  function MeanError(m: MathLib, rows: seq<Row>, key: ResourceKey): Option<real> {
    if |rows| < 3 then None else Some(ErrorSum(m, rows, key, |rows|) / |rows| as real)
  }

  ghost predicate AllPeriodsPositive(rows: seq<Row>) {
    forall key :: PositivePeriods(rows, key)
  }

  /** An error the code may compute for a round: one against a possible prediction. */
  ghost predicate PossibleError(m: MathLib, train: seq<Row>, test: Row, key: ResourceKey, e: real) {
    exists u :: Possible(m, train, test.loadValue, PeriodForKey(test, key), key, u) && e == Mape(KeyVal(test, key), u)
  }

  /** Errors the code may collect in its first rounds. */
  ghost predicate PossibleErrors(m: MathLib, rows: seq<Row>, key: ResourceKey, errs: seq<real>) {
    |errs| <= |rows| && forall i :: 0 <= i < |errs| ==> PossibleError(m, Without(rows, i), rows[i], key, errs[i])
  }

  /** A result the code may return: not available for fewer than three rows, else the mean of possible errors
      of all rounds. */
  ghost predicate PossibleMean(m: MathLib, rows: seq<Row>, key: ResourceKey, o: Option<real>) {
    if |rows| < 3 then o == None
    else exists errs :: |errs| == |rows| && PossibleErrors(m, rows, key, errs) && o == Some(MeanOf(errs))
  }

  function MeanOf(errs: seq<real>): real {
    if |errs| == 0 then 0.0 else SumOf(Identity, errs) / |errs| as real
  }

  // ---------------------------------------------------------------------------------------
  // The loop

  lemma WithoutMember<T>(rows: seq<T>, i: nat, r: T)
    requires i < |rows| && r in Without(rows, i)
    ensures r in rows
  {
  }

  lemma WithoutKeeps(rows: seq<Row>, i: nat)
    requires i < |rows|
    ensures DistinctLoads(rows) ==> DistinctLoads(Without(rows, i))
    ensures AllPeriodsPositive(rows) ==> AllPeriodsPositive(Without(rows, i))
  {
    hide KeyVal, PeriodForKey;
    var w := Without(rows, i);
    if DistinctLoads(rows) {
      forall a, b | 0 <= a < b < |w| ensures w[a].loadValue != w[b].loadValue {
        assert w[a] == rows[if a < i then a else a + 1] && w[b] == rows[if b < i then b else b + 1];
      }
    }
    if AllPeriodsPositive(rows) {
      forall key, r | r in w && KeyVal(r, key) > 0.0 ensures PeriodForKey(r, key) > 0.0 {
        WithoutMember(rows, i, r);
        assert PositivePeriods(rows, key);
      }
    }
  }

  lemma DistinctLoadsDetermine(m: MathLib, rows: seq<Row>, key: ResourceKey, target: real)
    requires DistinctLoads(rows)
    ensures Consistent(X, ScaledPoints(m, rows, key, target))
  {
    ScaledDistinct(m, rows, key, target, Alpha(m, rows, key));
    DistinctConsistent(ScaledPoints(m, rows, key, target));
  }

  datatype Estimates = Estimates(cpuCores: real, memPeakBytes: real, diskBytes: real)

  /** estimateAll: each component is a possible estimate of its own resource. */
  method EstimateAll(m: MathLib, rows: array<Row>, load: real, target: real) returns (e: Estimates)
    requires AllPeriodsPositive(rows[..])
    ensures Possible(m, rows[..], load, target, CpuCores, e.cpuCores)
    ensures Possible(m, rows[..], load, target, MemPeakBytes, e.memPeakBytes)
    ensures Possible(m, rows[..], load, target, DiskBytes, e.diskBytes)
  {
    hide Possible, Estimate, ScaledPoints, PositivePeriods;
    assert PositivePeriods(rows[..], CpuCores) && PositivePeriods(rows[..], MemPeakBytes);
    assert PositivePeriods(rows[..], DiskBytes);
    var cpu := EstimateResource(m, rows, load, target, CpuCores);
    var mem := EstimateResource(m, rows, load, target, MemPeakBytes);
    var disk := EstimateResource(m, rows, load, target, DiskBytes);
    e := Estimates(cpu, mem, disk);
  }

  datatype Errors = Errors(cpuCores: Option<real>, memPeakBytes: Option<real>, diskBytes: Option<real>)

  /** The training set of round i, in a fresh array: the caller's rows are only read. */
  method TrainingRows(rows: array<Row>, i: nat) returns (train: array<Row>)
    requires i < rows.Length
    ensures fresh(train) && train[..] == Without(rows[..], i)
  {
    var s := rows[..i] + rows[i + 1..];
    train := new Row[|s|](j requires 0 <= j < |s| => s[j]);
    assert train[..] == s;
  }

  lemma ErrorIsPossible(m: MathLib, train: seq<Row>, test: Row, key: ResourceKey, target: real, u: real)
    requires Possible(m, train, test.loadValue, target, key, u) && target == PeriodForKey(test, key)
    ensures PossibleError(m, train, test, key, Mape(KeyVal(test, key), u))
  {
    hide Possible, Mape;
  }

  /** One round: possible errors of the three resources at row i. */
  method Round(m: MathLib, rows: array<Row>, i: nat) returns (e: Estimates)
    requires i < rows.Length && AllPeriodsPositive(rows[..])
    ensures PossibleError(m, Without(rows[..], i), rows[i], CpuCores, e.cpuCores)
    ensures PossibleError(m, Without(rows[..], i), rows[i], MemPeakBytes, e.memPeakBytes)
    ensures PossibleError(m, Without(rows[..], i), rows[i], DiskBytes, e.diskBytes)
  {
    hide Possible, PossibleError, Mape, ScaledPoints, PositivePeriods, AllPeriodsPositive;
    var test := rows[i];
    var train := TrainingRows(rows, i);
    WithoutKeeps(rows[..], i);
    var pred := EstimateAll(m, train, test.loadValue, test.retentionDays);
    assert PositivePeriods(train[..], DiskBytes) by { PositiveFor(train[..], DiskBytes); }
    var predDisk := EstimateResource(m, train, test.loadValue, MeasuredPeriodDays(test), DiskBytes);
    e := Estimates(
      Mape(test.cpuCores, pred.cpuCores),
      Mape(test.memPeakBytes, pred.memPeakBytes),
      Mape(test.diskBytes, predDisk));
    ErrorIsPossible(m, train[..], test, CpuCores, test.retentionDays, pred.cpuCores);
    ErrorIsPossible(m, train[..], test, MemPeakBytes, test.retentionDays, pred.memPeakBytes);
    ErrorIsPossible(m, train[..], test, DiskBytes, MeasuredPeriodDays(test), predDisk);
  }

  lemma PositiveFor(rows: seq<Row>, key: ResourceKey)
    requires AllPeriodsPositive(rows)
    ensures PositivePeriods(rows, key)
  {
  }

  lemma PossibleErrorsStep(m: MathLib, rows: seq<Row>, key: ResourceKey, errs: seq<real>, e: real)
    requires PossibleErrors(m, rows, key, errs) && |errs| < |rows|
    requires PossibleError(m, Without(rows, |errs|), rows[|errs|], key, e)
    ensures PossibleErrors(m, rows, key, errs + [e])
  {
    hide PossibleError;
  }

  method Average(errs: seq<real>) returns (mean: real)
    ensures mean == MeanOf(errs)
  {
    if |errs| == 0 {
      return 0.0;
    }
    var s := 0.0;
    for i := 0 to |errs|
      invariant s == SumOf(Identity, errs[..i])
    {
      assert errs[..i + 1] == errs[..i] + [errs[i]];
      SumOfStep(Identity, errs[..i], errs[i]);
      s := s + errs[i];
    }
    assert errs[..|errs|] == errs;
    mean := s / |errs| as real;
  }

  /** validateHoldout: nothing the caller can see is modified; whatever the loads, the outcome is a possible
      mean error of each resource, and with distinct loads it is the mean error. */
  method ValidateHoldout(m: MathLib, rows: array<Row>) returns (out: Errors)
    requires AllPeriodsPositive(rows[..])
    ensures out.cpuCores.None? <==> rows.Length < 3
    ensures out.memPeakBytes.None? <==> rows.Length < 3
    ensures out.diskBytes.None? <==> rows.Length < 3
    ensures PossibleMean(m, rows[..], CpuCores, out.cpuCores)
    ensures PossibleMean(m, rows[..], MemPeakBytes, out.memPeakBytes)
    ensures PossibleMean(m, rows[..], DiskBytes, out.diskBytes)
    ensures DistinctLoads(rows[..]) ==> out == Errors(
      MeanError(m, rows[..], CpuCores), MeanError(m, rows[..], MemPeakBytes), MeanError(m, rows[..], DiskBytes))
  {
    hide PossibleErrors, MeanOf, MeanError, AllPeriodsPositive, DistinctLoads;
    out := Errors(None, None, None);
    if rows.Length < 3 {
      DistinctMean(m, rows[..], out);
      return;
    }
    var cpu: seq<real>, mem: seq<real>, disk: seq<real> := [], [], [];
    NoErrors(m, rows[..]);
    for i := 0 to rows.Length
      invariant |cpu| == i && PossibleErrors(m, rows[..], CpuCores, cpu)
      invariant |mem| == i && PossibleErrors(m, rows[..], MemPeakBytes, mem)
      invariant |disk| == i && PossibleErrors(m, rows[..], DiskBytes, disk)
    {
      var e := Round(m, rows, i);
      PossibleErrorsStep(m, rows[..], CpuCores, cpu, e.cpuCores);
      PossibleErrorsStep(m, rows[..], MemPeakBytes, mem, e.memPeakBytes);
      PossibleErrorsStep(m, rows[..], DiskBytes, disk, e.diskBytes);
      cpu, mem, disk := cpu + [e.cpuCores], mem + [e.memPeakBytes], disk + [e.diskBytes];
    }
    var cpuMean := Average(cpu);
    var memMean := Average(mem);
    var diskMean := Average(disk);
    out := Errors(Some(cpuMean), Some(memMean), Some(diskMean));
    DistinctMean(m, rows[..], out);
  }

  lemma NoErrors(m: MathLib, rows: seq<Row>)
    ensures forall key :: PossibleErrors(m, rows, key, [])
  {
  }

  /** Every round has one possible error. */
  ghost predicate Determined(m: MathLib, rows: seq<Row>, key: ResourceKey) {
    forall i, e :: 0 <= i < |rows| && PossibleError(m, Without(rows, i), rows[i], key, e) ==>
      e == ErrorOf(m, Without(rows, i), rows[i], key)
  }

  lemma {:induction false} DeterminedErrors(m: MathLib, rows: seq<Row>, key: ResourceKey, errs: seq<real>, n: nat)
    requires PossibleErrors(m, rows, key, errs) && Determined(m, rows, key) && n <= |errs|
    ensures SumOf(Identity, errs[..n]) == ErrorSum(m, rows, key, n)
  {
    hide PossibleError, ErrorOf;
    if n > 0 {
      DeterminedErrors(m, rows, key, errs, n - 1);
      assert PossibleError(m, Without(rows, n - 1), rows[n - 1], key, errs[n - 1]);
      assert errs[..n] == errs[..n - 1] + [errs[n - 1]];
      SumOfStep(Identity, errs[..n - 1], errs[n - 1]);
    }
  }

  lemma DeterminedMean(m: MathLib, rows: seq<Row>, key: ResourceKey, o: Option<real>)
    requires PossibleMean(m, rows, key, o) && Determined(m, rows, key)
    ensures o == MeanError(m, rows, key)
  {
    hide PossibleErrors, Determined, SumOf, ErrorSum;
    if |rows| >= 3 {
      var errs :| |errs| == |rows| && PossibleErrors(m, rows, key, errs) && o == Some(MeanOf(errs));
      DeterminedErrors(m, rows, key, errs, |errs|);
      assert errs[..|errs|] == errs;
    }
  }

  /** The error against Estimate is possible. */
  lemma ErrorOfPossible(m: MathLib, train: seq<Row>, test: Row, key: ResourceKey)
    ensures PossibleError(m, train, test, key, ErrorOf(m, train, test, key))
  {
    hide Possible, Estimate, Mape;
    EstimatePossible(m, train, test.loadValue, PeriodForKey(test, key), key);
  }

  /** The errors against Estimate of the first n rounds. */
  function PlainErrors(m: MathLib, rows: seq<Row>, key: ResourceKey, n: nat): (errs: seq<real>)
    requires n <= |rows|
    ensures |errs| == n
    ensures forall i :: 0 <= i < n ==> errs[i] == ErrorOf(m, Without(rows, i), rows[i], key)
  {
    seq(n, i requires 0 <= i < n => ErrorOf(m, Without(rows, i), rows[i], key))
  }

  lemma PlainErrorsPossible(m: MathLib, rows: seq<Row>, key: ResourceKey)
    ensures PossibleErrors(m, rows, key, PlainErrors(m, rows, key, |rows|))
  {
    hide PossibleError, ErrorOf;
    forall i | 0 <= i < |rows|
      ensures PossibleError(m, Without(rows, i), rows[i], key, PlainErrors(m, rows, key, |rows|)[i])
    {
      ErrorOfPossible(m, Without(rows, i), rows[i], key);
    }
  }

  lemma EmptySum(errs: seq<real>)
    requires |errs| == 0
    ensures SumOf(Identity, errs) == 0.0
  {
  }

  lemma {:induction false} PlainSum(m: MathLib, rows: seq<Row>, key: ResourceKey, n: nat)
    requires n <= |rows|
    ensures SumOf(Identity, PlainErrors(m, rows, key, n)) == ErrorSum(m, rows, key, n)
  {
    hide ErrorOf, SumOf, PlainErrors;
    if n == 0 {
      EmptySum(PlainErrors(m, rows, key, n));
    } else {
      PlainSum(m, rows, key, n - 1);
      var errs := PlainErrors(m, rows, key, n);
      assert errs == PlainErrors(m, rows, key, n - 1) + [errs[n - 1]];
      SumOfStep(Identity, PlainErrors(m, rows, key, n - 1), errs[n - 1]);
    }
  }

  /** MeanError is itself a possible result. */
  lemma MeanErrorPossible(m: MathLib, rows: seq<Row>, key: ResourceKey)
    ensures PossibleMean(m, rows, key, MeanError(m, rows, key))
  {
    hide PossibleErrors, ErrorSum, SumOf, PlainErrors;
    if |rows| >= 3 {
      PlainErrorsPossible(m, rows, key);
      PlainSum(m, rows, key, |rows|);
      assert |PlainErrors(m, rows, key, |rows|)| == |rows|;
    }
  }

  /** Replacing one error changes the mean. */
  lemma OtherMean(errs: seq<real>, i: nat, e: real)
    requires i < |errs| && e != errs[i]
    ensures MeanOf(errs[i := e]) != MeanOf(errs)
  {
    var other, n := errs[i := e], |errs| as real;
    SumOfSplit(Identity, errs, i);
    SumOfSplit(Identity, other, i);
    assert Without(other, i) == Without(errs, i);
    hide SumOf;
    SameMean(SumOf(Identity, errs), SumOf(Identity, other), n);
  }

  lemma SameMean(a: real, b: real, n: real)
    requires n > 0.0
    ensures a / n == b / n ==> a == b
  {
    assert (a / n) * n == a && (b / n) * n == b;
  }

  /** MeanError is the only possible result exactly when every round has one possible error. */
  lemma MeanDeterminedIff(m: MathLib, rows: seq<Row>, key: ResourceKey)
    requires |rows| >= 3
    ensures (forall o :: PossibleMean(m, rows, key, o) ==> o == MeanError(m, rows, key))
      <==> Determined(m, rows, key)
  {
    hide PossibleMean, PossibleError, Determined, MeanOf, SumOf, MeanError, ErrorOf;
    if Determined(m, rows, key) {
      forall o | PossibleMean(m, rows, key, o) ensures o == MeanError(m, rows, key) {
        DeterminedMean(m, rows, key, o);
      }
    }
    if forall o :: PossibleMean(m, rows, key, o) ==> o == MeanError(m, rows, key) {
      forall i, e | 0 <= i < |rows| && PossibleError(m, Without(rows, i), rows[i], key, e)
        ensures e == ErrorOf(m, Without(rows, i), rows[i], key)
      {
        if e != ErrorOf(m, Without(rows, i), rows[i], key) {
          var errs := PlainErrors(m, rows, key, |rows|);
          PlainErrorsPossible(m, rows, key);
          OtherMean(errs, i, e);
          MeanIsPossible(m, rows, key, errs);
          MeanIsPossible(m, rows, key, errs[i := e]);
        }
      }
      assert Determined(m, rows, key) by { DeterminedFrom(m, rows, key); }
    }
  }

  lemma DeterminedFrom(m: MathLib, rows: seq<Row>, key: ResourceKey)
    requires forall i, e :: 0 <= i < |rows| && PossibleError(m, Without(rows, i), rows[i], key, e) ==>
      e == ErrorOf(m, Without(rows, i), rows[i], key)
    ensures Determined(m, rows, key)
  {
  }

  lemma MeanIsPossible(m: MathLib, rows: seq<Row>, key: ResourceKey, errs: seq<real>)
    requires |rows| >= 3 && |errs| == |rows| && PossibleErrors(m, rows, key, errs)
    ensures PossibleMean(m, rows, key, Some(MeanOf(errs)))
  {
    hide PossibleErrors, MeanOf;
  }

  /** In every round with a measurement to predict, the training rows with equal loads agree. */
  ghost predicate TrainingAgrees(m: MathLib, rows: seq<Row>, key: ResourceKey) {
    forall i :: 0 <= i < |rows| && KeyVal(rows[i], key) > 0.0 ==> LoadsAgree(m, Without(rows, i), key)
  }

  lemma RoundDetermined(m: MathLib, train: seq<Row>, test: Row, key: ResourceKey, e: real)
    requires KeyVal(test, key) > 0.0 ==> Consistent(X, ScaledPoints(m, train, key, PeriodForKey(test, key)))
    requires PossibleError(m, train, test, key, e)
    ensures e == ErrorOf(m, train, test, key)
  {
    hide Possible, Estimate, ScaledPoints;
    var u :| Possible(m, train, test.loadValue, PeriodForKey(test, key), key, u) && e == Mape(KeyVal(test, key), u);
    if KeyVal(test, key) > 0.0 {
      PossibleDetermined(m, train, test.loadValue, PeriodForKey(test, key), key, u);
    }
  }

  /** When the training rows agree, the only possible result is the mean error. */
  lemma MeanDetermined(m: MathLib, rows: seq<Row>, key: ResourceKey)
    requires m.Lawful() && PositivePeriods(rows, key) && TrainingAgrees(m, rows, key)
    ensures Determined(m, rows, key)
    ensures forall o :: PossibleMean(m, rows, key, o) ==> o == MeanError(m, rows, key)
  {
    hide ScaledPoints, LoadsAgree, KeyVal, PeriodForKey, PossibleError, PossibleMean, MeanError, ErrorOf;
    hide MathLib.Lawful;
    forall i, e | 0 <= i < |rows| && PossibleError(m, Without(rows, i), rows[i], key, e)
      ensures e == ErrorOf(m, Without(rows, i), rows[i], key)
    {
      assert rows[i] in rows;
      WithoutPositive(rows, key, i);
      if KeyVal(rows[i], key) > 0.0 {
        ConsistentIff(m, Without(rows, i), key, PeriodForKey(rows[i], key));
      }
      RoundDetermined(m, Without(rows, i), rows[i], key, e);
    }
    forall o | PossibleMean(m, rows, key, o) ensures o == MeanError(m, rows, key) {
      DeterminedMean(m, rows, key, o);
    }
  }

  lemma DistinctDetermined(m: MathLib, rows: seq<Row>, key: ResourceKey)
    requires DistinctLoads(rows)
    ensures Determined(m, rows, key)
  {
    hide ScaledPoints, DistinctLoads, PossibleError, ErrorOf, Consistent;
    forall i, e | 0 <= i < |rows| && PossibleError(m, Without(rows, i), rows[i], key, e)
      ensures e == ErrorOf(m, Without(rows, i), rows[i], key)
    {
      WithoutKeeps(rows, i);
      DistinctLoadsDetermine(m, Without(rows, i), key, PeriodForKey(rows[i], key));
      RoundDetermined(m, Without(rows, i), rows[i], key, e);
    }
  }

  /** A resource nobody measured gets a perfect score: every error is counted as zero. */
  lemma UnmeasuredScoresZero(m: MathLib, rows: seq<Row>, key: ResourceKey, o: Option<real>)
    requires |rows| >= 3 && forall r :: r in rows ==> KeyVal(r, key) <= 0.0
    ensures PossibleMean(m, rows, key, o) <==> o == Some(0.0)
  {
    hide Possible, Estimate, ErrorSum, PossibleMean, MeanError, KeyVal, PeriodForKey;
    MeanErrorZeroIff(m, rows, key);
    MeanErrorPossible(m, rows, key);
    forall i, e | 0 <= i < |rows| && PossibleError(m, Without(rows, i), rows[i], key, e)
      ensures e == ErrorOf(m, Without(rows, i), rows[i], key)
    {
      assert rows[i] in rows;
    }
    if PossibleMean(m, rows, key, o) {
      DeterminedMean(m, rows, key, o);
    }
  }

  lemma DistinctMean(m: MathLib, rows: seq<Row>, out: Errors)
    requires PossibleMean(m, rows, CpuCores, out.cpuCores)
    requires PossibleMean(m, rows, MemPeakBytes, out.memPeakBytes)
    requires PossibleMean(m, rows, DiskBytes, out.diskBytes)
    ensures DistinctLoads(rows) ==> out == Errors(
      MeanError(m, rows, CpuCores), MeanError(m, rows, MemPeakBytes), MeanError(m, rows, DiskBytes))
  {
    hide PossibleMean, Determined, DistinctLoads;
    if DistinctLoads(rows) {
      DistinctDetermined(m, rows, CpuCores);
      DistinctDetermined(m, rows, MemPeakBytes);
      DistinctDetermined(m, rows, DiskBytes);
      DeterminedMean(m, rows, CpuCores, out.cpuCores);
      DeterminedMean(m, rows, MemPeakBytes, out.memPeakBytes);
      DeterminedMean(m, rows, DiskBytes, out.diskBytes);
    }
  }

  // ---------------------------------------------------------------------------------------
  // Exactness

  lemma MapeNonnegative(yTrue: real, yPred: real)
    ensures Mape(yTrue, yPred) >= 0.0
    ensures Mape(yTrue, yPred) == 0.0 <==> yTrue <= 0.0 || yPred == yTrue
  {
    if yTrue > 0.0 {
      var q, d := Abs(yTrue - yPred) / yTrue, Abs(yTrue - yPred);
      assert q * yTrue == d;
      NonnegativeQuotient(d, yTrue);
    }
  }

  /** d is the relative error of predicting u for v; a value that is not positive counts as no error. */
  ghost predicate RelativeError(d: real, v: real, u: real) {
    if v > 0.0 then d >= 0.0 && (d * v == v - u || d * v == u - v) else d == 0.0
  }

  lemma MapeIsRelative(d: real, v: real, u: real)
    ensures RelativeError(d, v, u) <==> d == Mape(v, u)
  {
    if v > 0.0 {
      MapeNonnegative(v, u);
      var e := Mape(v, u);
      assert e * v == Abs(v - u);
      if RelativeError(d, v, u) {
        SignOfDistance(d, v, v - u, d * v);
        QuotientOf(d, e, v);
      }
    }
  }

  lemma SignOfDistance(d: real, v: real, w: real, z: real)
    requires v > 0.0 && d >= 0.0 && z == d * v && (z == w || z == -w)
    ensures z == Abs(w)
  {
  }

  lemma QuotientOf(d: real, e: real, v: real)
    requires v > 0.0
    ensures d * v == e * v ==> d == e
  {
    SignOfProduct(d - e, v, (d - e) * v);
    assert (d - e) * v == d * v - e * v;
  }

  /** The mean error times the number of rows is the sum of the relative errors of all rounds. */
  lemma MeanErrorValue(m: MathLib, rows: seq<Row>, key: ResourceKey, ds: seq<real>)
    requires |rows| >= 3 && |ds| == |rows|
    requires forall i :: 0 <= i < |rows| ==> RelativeError(ds[i], KeyVal(rows[i], key),
      Estimate(m, Without(rows, i), rows[i].loadValue, PeriodForKey(rows[i], key), key))
    ensures MeanError(m, rows, key).Some?
    ensures MeanError(m, rows, key).value * |rows| as real == SumOf(Identity, ds)
  {
    hide Estimate, Mape, RelativeError, KeyVal, PeriodForKey, ErrorSum, SumOf, PlainErrors;
    forall i | 0 <= i < |rows| ensures ds[i] == PlainErrors(m, rows, key, |rows|)[i] {
      MapeIsRelative(ds[i], KeyVal(rows[i], key),
        Estimate(m, Without(rows, i), rows[i].loadValue, PeriodForKey(rows[i], key), key));
    }
    assert ds == PlainErrors(m, rows, key, |rows|);
    PlainSum(m, rows, key, |rows|);
    TimesDivided(ErrorSum(m, rows, key, |rows|), |rows| as real);
  }

  lemma TimesDivided(a: real, b: real)
    requires b != 0.0
    ensures (a / b) * b == a
  {
  }

  /** A result is possible exactly when it is the mean of relative errors of possible predictions. */
  lemma PossibleMeanValue(m: MathLib, rows: seq<Row>, key: ResourceKey, v: real)
    requires |rows| >= 3
    ensures PossibleMean(m, rows, key, Some(v)) <==>
      exists ds: seq<real> :: |ds| == |rows| && v * |rows| as real == SumOf(Identity, ds) && Predicted(m, rows, key, ds)
  {
    hide PossibleErrors, Predicted, SumOf;
    if PossibleMean(m, rows, key, Some(v)) {
      var errs :| |errs| == |rows| && PossibleErrors(m, rows, key, errs) && Some(v) == Some(MeanOf(errs));
      PredictedIff(m, rows, key, errs);
      TimesDivided(SumOf(Identity, errs), |rows| as real);
    }
    if ds: seq<real> :|
      |ds| == |rows| && v * |rows| as real == SumOf(Identity, ds) && Predicted(m, rows, key, ds)
    {
      PredictedIff(m, rows, key, ds);
      QuotientIs(v, |rows| as real, SumOf(Identity, ds));
    }
  }

  lemma QuotientIs(v: real, b: real, a: real)
    requires b != 0.0 && v * b == a
    ensures v == a / b
  {
  }

  /** Every ds[i] is the relative error of a possible prediction for row i from the other rows. */
  ghost predicate Predicted(m: MathLib, rows: seq<Row>, key: ResourceKey, ds: seq<real>)
    requires |ds| == |rows|
  {
    forall i :: 0 <= i < |rows| ==> PredictedRow(m, Without(rows, i), rows[i], key, ds[i])
  }

  ghost predicate PredictedRow(m: MathLib, train: seq<Row>, test: Row, key: ResourceKey, d: real) {
    exists u ::
      Possible(m, train, test.loadValue, PeriodForKey(test, key), key, u) && RelativeError(d, KeyVal(test, key), u)
  }

  lemma PredictedRowIff(m: MathLib, train: seq<Row>, test: Row, key: ResourceKey, d: real)
    ensures PredictedRow(m, train, test, key, d) <==> PossibleError(m, train, test, key, d)
  {
    hide Possible, RelativeError, Mape, KeyVal, PeriodForKey;
    forall u ensures RelativeError(d, KeyVal(test, key), u) <==> d == Mape(KeyVal(test, key), u) {
      MapeIsRelative(d, KeyVal(test, key), u);
    }
  }

  lemma PredictedIff(m: MathLib, rows: seq<Row>, key: ResourceKey, ds: seq<real>)
    requires |ds| == |rows|
    ensures Predicted(m, rows, key, ds) <==> PossibleErrors(m, rows, key, ds)
  {
    hide PredictedRow, PossibleError;
    forall i | 0 <= i < |rows|
      ensures PredictedRow(m, Without(rows, i), rows[i], key, ds[i])
        <==> PossibleError(m, Without(rows, i), rows[i], key, ds[i])
    {
      PredictedRowIff(m, Without(rows, i), rows[i], key, ds[i]);
    }
  }

  lemma {:induction false} SumOfConstant(ds: seq<real>, q: real)
    requires forall i :: 0 <= i < |ds| ==> ds[i] == q
    ensures SumOf(Identity, ds) == q * |ds| as real
  {
    if |ds| > 0 {
      SumOfConstant(ds[..|ds| - 1], q);
      assert q * |ds| as real == q * (|ds| - 1) as real + q;
    }
  }

  lemma SameFactor(v: real, q: real, n: real, n': real, z: real)
    requires n == n' > 0.0 && v * n == z && q * n' == z
    ensures v == q
  {
    QuotientOf(v, q, n);
  }

  /** Predictions that are all off by the fraction q have the mean error q. */
  lemma UniformError(m: MathLib, rows: seq<Row>, key: ResourceKey, q: real)
    requires |rows| >= 3 && q >= 0.0
    requires forall i :: 0 <= i < |rows| ==> KeyVal(rows[i], key) > 0.0 && RelativeError(q, KeyVal(rows[i], key),
      Estimate(m, Without(rows, i), rows[i].loadValue, PeriodForKey(rows[i], key), key))
    ensures MeanError(m, rows, key) == Some(q)
  {
    hide Estimate, RelativeError, KeyVal, PeriodForKey, MeanError, SumOf;
    var ds := seq(|rows|, i => q);
    MeanErrorValue(m, rows, key, ds);
    SumOfConstant(ds, q);
    SameFactor(MeanError(m, rows, key).value, q, |rows| as real, |ds| as real, SumOf(Identity, ds));
  }

  lemma {:induction false} ErrorSumZero(m: MathLib, rows: seq<Row>, key: ResourceKey, n: nat)
    requires n <= |rows|
    ensures ErrorSum(m, rows, key, n) >= 0.0
    ensures ErrorSum(m, rows, key, n) == 0.0 <==>
      forall i :: 0 <= i < n ==> ErrorOf(m, Without(rows, i), rows[i], key) == 0.0
  {
    hide Estimate, Mape;
    if n > 0 {
      ErrorSumZero(m, rows, key, n - 1);
      var test := rows[n - 1];
      MapeNonnegative(KeyVal(test, key),
        Estimate(m, Without(rows, n - 1), test.loadValue, PeriodForKey(test, key), key));
    }
  }

  /** A mean error of zero means that every left-out measurement was predicted exactly, and conversely. */
  lemma MeanErrorZeroIff(m: MathLib, rows: seq<Row>, key: ResourceKey)
    requires |rows| >= 3
    ensures MeanError(m, rows, key).value >= 0.0
    ensures MeanError(m, rows, key) == Some(0.0) <==>
      forall i :: 0 <= i < |rows| && KeyVal(rows[i], key) > 0.0 ==>
        Estimate(m, Without(rows, i), rows[i].loadValue, PeriodForKey(rows[i], key), key) == KeyVal(rows[i], key)
  {
    hide Estimate, Mape, ErrorSum, KeyVal, PeriodForKey;
    ErrorSumZero(m, rows, key, |rows|);
    forall i | 0 <= i < |rows|
      ensures ErrorOf(m, Without(rows, i), rows[i], key) == 0.0 <==> (KeyVal(rows[i], key) > 0.0 ==>
        Estimate(m, Without(rows, i), rows[i].loadValue, PeriodForKey(rows[i], key), key) == KeyVal(rows[i], key))
    {
      MapeNonnegative(KeyVal(rows[i], key),
        Estimate(m, Without(rows, i), rows[i].loadValue, PeriodForKey(rows[i], key), key));
    }
    ZeroQuotient(ErrorSum(m, rows, key, |rows|), |rows| as real);
  }

  lemma ZeroQuotient(a: real, b: real)
    requires a >= 0.0 && b > 0.0
    ensures a / b >= 0.0 && (a / b == 0.0 <==> a == 0.0)
  {
    assert (a / b) * b == a;
    NonnegativeQuotient(a, b);
  }

  /** The resource is positive and affine in load, and every row was measured over the same period. */
  ghost predicate AffineData(rows: seq<Row>, key: ResourceKey, a: real, b: real, period: real) {
    forall r :: r in rows ==>
      KeyVal(r, key) == a + b * r.loadValue && KeyVal(r, key) > 0.0 && PeriodForKey(r, key) == period
  }

  function PlainPoint(key: ResourceKey): Row -> Option<Point> {
    (r: Row) => Some(Point(r.loadValue, KeyVal(r, key)))
  }

  /** At the common period the rescaled points are the measurements themselves. */
  lemma CommonPeriodPoints(
      m: MathLib, rows: seq<Row>, key: ResourceKey, a: real, b: real, period: real)
    requires m.Lawful() && AffineData(rows, key, a, b, period) && period > 0.0
    ensures ScaledPoints(m, rows, key, period) == FilterMap(PlainPoint(key), rows)
    ensures |ScaledPoints(m, rows, key, period)| == |rows|
    ensures forall p :: p in ScaledPoints(m, rows, key, period) ==> p.y == a + b * p.x
  {
    hide Alpha, FilterMap, ScaledPoint, MathLib.Lawful;
    var alpha := Alpha(m, rows, key);
    forall r | r in rows ensures ScaledPoint(m, key, period, alpha)(r) == PlainPoint(key)(r) {
      OwnPoint(m, r, key, alpha);
    }
    FilterMapSame(ScaledPoint(m, key, period, alpha), PlainPoint(key), rows);
    AllKept(PlainPoint(key), rows);
    forall p | p in ScaledPoints(m, rows, key, period) ensures p.y == a + b * p.x {
      FilterMapMembers(PlainPoint(key), rows, p);
    }
  }

  /** Two or more affine measurements predict every load exactly, inside and outside the measured range. */
  lemma AffineEstimate(
      m: MathLib, rows: seq<Row>, key: ResourceKey, a: real, b: real, period: real, load: real)
    requires m.Lawful() && DistinctLoads(rows) && |rows| >= 2
    requires AffineData(rows, key, a, b, period) && period > 0.0
    ensures Estimate(m, rows, load, period, key) == Max(0.0, a + b * load)
  {
    hide Alpha, FilterMap, ScaledPoint, Curve, AffineData, MathLib.Lawful;
    var pts := ScaledPoints(m, rows, key, period);
    CommonPeriodPoints(m, rows, key, a, b, period);
    ScaledDistinct(m, rows, key, period, Alpha(m, rows, key));
    SortedIncreasing(pts);
    var s := Sorted(X, pts);
    PermutationLength(s, pts);
    forall i | 0 <= i < |s| ensures s[i].y == a + b * s[i].x {
      assert s[i] in pts;
    }
    CurveOfLine(s, a, b, load);
  }

  /** Leave-one-out is exact on affine data, the extrapolated end rows included. */
  lemma ExactOnAffineData(m: MathLib, rows: seq<Row>, key: ResourceKey, a: real, b: real, period: real)
    requires m.Lawful() && |rows| >= 3 && DistinctLoads(rows)
    requires AffineData(rows, key, a, b, period) && period > 0.0
    ensures MeanError(m, rows, key) == Some(0.0)
  {
    hide Estimate, KeyVal, PeriodForKey, MathLib.Lawful, MeanError, DistinctLoads;
    MeanErrorZeroIff(m, rows, key);
    forall i | 0 <= i < |rows|
      ensures Estimate(m, Without(rows, i), rows[i].loadValue, PeriodForKey(rows[i], key), key) == KeyVal(rows[i], key)
    {
      ExactRound(m, rows, key, a, b, period, i);
    }
  }

  lemma AffineWithout(rows: seq<Row>, key: ResourceKey, a: real, b: real, period: real, i: nat)
    requires AffineData(rows, key, a, b, period) && i < |rows|
    ensures AffineData(Without(rows, i), key, a, b, period)
  {
    forall r | r in Without(rows, i) ensures r in rows {
      WithoutMember(rows, i, r);
    }
  }

  lemma ExactRound(
      m: MathLib, rows: seq<Row>, key: ResourceKey, a: real, b: real, period: real, i: nat)
    requires m.Lawful() && |rows| >= 3 && DistinctLoads(rows) && i < |rows|
    requires AffineData(rows, key, a, b, period) && period > 0.0
    ensures Estimate(m, Without(rows, i), rows[i].loadValue, PeriodForKey(rows[i], key), key) == KeyVal(rows[i], key)
  {
    hide Estimate, KeyVal, PeriodForKey, MathLib.Lawful, DistinctLoads;
    assert rows[i] in rows;
    AffineWithout(rows, key, a, b, period, i);
    WithoutKeeps(rows, i);
    AffineEstimate(m, Without(rows, i), key, a, b, period, rows[i].loadValue);
  }

  // ---------------------------------------------------------------------------------------
  // Row order

  /** Values attached to the elements of s, carried along when s is permuted into t. */
  lemma {:induction false} PermuteAlong<T>(s: seq<T>, t: seq<T>, a: seq<real>) returns (b: seq<real>)
    requires Permutation(s, t) && |a| == |s|
    ensures |b| == |t| && SumOf(Identity, b) == SumOf(Identity, a)
    ensures Carried(s, t, a, b)
    decreases |s|
  {
    hide SumOf, Carried;
    PermutationLength(s, t);
    if |s| == 0 {
      b := a;
      CarriedEmpty(s, t, a, b);
    } else {
      var n := |s| - 1;
      var k := PermutationDropLast(s, t);
      var c := PermuteAlong(s[..n], Without(t, k), a[..n]);
      b := c[..k] + [a[n]] + c[k..];
      SumOfSplit(Identity, b, k);
      SumOfSplit(Identity, a, n);
      assert Without(b, k) == c && Without(a, n) == a[..n];
      CarriedStep(s, t, a, b, k);
    }
  }

  ghost predicate Carried<T>(s: seq<T>, t: seq<T>, a: seq<real>, b: seq<real>)
    requires |a| == |s| && |b| == |t|
  {
    forall j :: 0 <= j < |t| ==> exists i :: 0 <= i < |s| && s[i] == t[j] && a[i] == b[j]
  }

  lemma CarriedEmpty<T>(s: seq<T>, t: seq<T>, a: seq<real>, b: seq<real>)
    requires |a| == |s| && |b| == |t| == 0
    ensures Carried(s, t, a, b)
  {
  }

  lemma CarriedStep<T>(s: seq<T>, t: seq<T>, a: seq<real>, b: seq<real>, k: nat)
    requires |a| == |s| > 0 && |b| == |t| > k && s[|s| - 1] == t[k] && a[|a| - 1] == b[k]
    requires Carried(s[..|s| - 1], Without(t, k), a[..|a| - 1], Without(b, k))
    ensures Carried(s, t, a, b)
  {
    var n := |s| - 1;
    forall j | 0 <= j < |t| ensures exists i :: 0 <= i < |s| && s[i] == t[j] && a[i] == b[j] {
      if j == k {
        assert s[n] == t[j] && a[n] == b[j];
      } else {
        var j' := if j < k then j else j - 1;
        assert Without(t, k)[j'] == t[j] && Without(b, k)[j'] == b[j];
        var i :| 0 <= i < n && s[..n][i] == t[j] && a[..n][i] == b[j];
      }
    }
  }

  /** Leaving equal rows out of permutations leaves permutations. */
  lemma WithoutPermutation(rows: seq<Row>, rows': seq<Row>, i: nat, j: nat)
    requires Permutation(rows, rows') && i < |rows| && j < |rows'| && rows[i] == rows'[j]
    ensures Permutation(Without(rows, i), Without(rows', j))
  {
    WithoutMultiset(rows, i);
    WithoutMultiset(rows', j);
    MultisetCancel(multiset(Without(rows, i)), multiset(Without(rows', j)), rows[i]);
  }

  lemma PossibleErrorPermuted(m: MathLib, train: seq<Row>, train': seq<Row>, test: Row, key: ResourceKey, e: real)
    requires Permutation(train, train') && PossibleError(m, train, test, key, e)
    ensures PossibleError(m, train', test, key, e)
  {
    hide Possible, Mape;
    var u :| Possible(m, train, test.loadValue, PeriodForKey(test, key), key, u) && e == Mape(KeyVal(test, key), u);
    PossibleOrderIndependent(m, train, train', test.loadValue, PeriodForKey(test, key), key, u);
  }

  /** The order of the rows decides nothing about which results are possible. */
  lemma PossibleMeanPermuted(m: MathLib, rows: seq<Row>, rows': seq<Row>, key: ResourceKey, o: Option<real>)
    requires Permutation(rows, rows') && PossibleMean(m, rows, key, o)
    ensures PossibleMean(m, rows', key, o)
  {
    hide SumOf, PossibleError;
    PermutationLength(rows, rows');
    if |rows| >= 3 {
      var errs :| |errs| == |rows| && PossibleErrors(m, rows, key, errs) && o == Some(MeanOf(errs));
      var errs' := PermuteAlong(rows, rows', errs);
      forall j | 0 <= j < |rows'| ensures PossibleError(m, Without(rows', j), rows'[j], key, errs'[j]) {
        var i :| 0 <= i < |rows| && rows[i] == rows'[j] && errs[i] == errs'[j];
        assert PossibleError(m, Without(rows, i), rows[i], key, errs[i]);
        WithoutPermutation(rows, rows', i, j);
        PossibleErrorPermuted(m, Without(rows, i), Without(rows', j), rows[i], key, errs[i]);
      }
      assert PossibleErrors(m, rows', key, errs');
    }
  }

  /** The possible results of leave-one-out are the same for every order of the rows, and so is the mean error
      when every round is determined. */
  lemma MeanErrorOrderIndependent(m: MathLib, rows: seq<Row>, rows': seq<Row>, key: ResourceKey)
    requires Permutation(rows, rows')
    ensures forall o :: PossibleMean(m, rows, key, o) <==> PossibleMean(m, rows', key, o)
    ensures Determined(m, rows, key) ==> MeanError(m, rows, key) == MeanError(m, rows', key)
  {
    hide PossibleMean, MeanError, Determined;
    forall o ensures PossibleMean(m, rows, key, o) <==> PossibleMean(m, rows', key, o) {
      if PossibleMean(m, rows, key, o) {
        PossibleMeanPermuted(m, rows, rows', key, o);
      }
      if PossibleMean(m, rows', key, o) {
        PossibleMeanPermuted(m, rows', rows, key, o);
      }
    }
    if Determined(m, rows, key) {
      MeanErrorPossible(m, rows', key);
      DeterminedMean(m, rows, key, MeanError(m, rows', key));
    }
  }

  // ---------------------------------------------------------------------------------------
  // Units

  lemma MapeUnitFree(k: real, yTrue: real, yPred: real, yTrue': real, yPred': real)
    requires k > 0.0 && yTrue' == k * yTrue && yPred' == k * yPred
    ensures Mape(yTrue', yPred') == Mape(yTrue, yPred)
  {
    TimesSign(k, yTrue);
    if yTrue > 0.0 {
      var d := yTrue - yPred;
      assert yTrue' - yPred' == k * d;
      TimesSign(k, d);
      assert Abs(k * d) == k * Abs(d);
      SameQuotient(k, Abs(d), yTrue);
    }
  }

  lemma WithoutMap(h: Row -> Row, rows: seq<Row>, i: nat)
    requires i < |rows|
    ensures Without(Map(h, rows), i) == Map(h, Without(rows, i))
  {
  }

  /** One leave-one-out round in new units for periods and values. */
  lemma ErrorUnitFree(m: MathLib, train: seq<Row>, test: Row, key: ResourceKey, h: Row -> Row, kp: real, kv: real)
    requires m.Lawful() && kp > 0.0 && kv > 0.0 && Rescales(h, key, kp, kv) && PositivePeriods(train, key)
    ensures ErrorOf(m, Map(h, train), h(test), key) == ErrorOf(m, train, test, key)
  {
    hide Estimate, Mape, KeyVal, PeriodForKey, PositivePeriods, MathLib.Lawful;
    var period := PeriodForKey(test, key);
    EstimateOfScaledRows(m, train, key, test.loadValue, period, h, kp, kv);
    assert h(test).loadValue == test.loadValue && PeriodForKey(h(test), key) == Times(kp, period);
    MapeUnitFree(kv, KeyVal(test, key), Estimate(m, train, test.loadValue, period, key),
      KeyVal(h(test), key), Estimate(m, Map(h, train), test.loadValue, Times(kp, period), key));
  }

  lemma {:induction false} ErrorSumUnitFree(
      m: MathLib, rows: seq<Row>, key: ResourceKey, h: Row -> Row, kp: real, kv: real, n: nat)
    requires m.Lawful() && kp > 0.0 && kv > 0.0 && Rescales(h, key, kp, kv) && PositivePeriods(rows, key)
    requires n <= |rows|
    ensures ErrorSum(m, Map(h, rows), key, n) == ErrorSum(m, rows, key, n)
  {
    hide ErrorOf, Rescales, PositivePeriods, MathLib.Lawful;
    if n > 0 {
      ErrorSumUnitFree(m, rows, key, h, kp, kv, n - 1);
      WithoutMap(h, rows, n - 1);
      WithoutPositive(rows, key, n - 1);
      ErrorUnitFree(m, Without(rows, n - 1), rows[n - 1], key, h, kp, kv);
    }
  }

  lemma PossibleErrorUnitFree(
      m: MathLib, train: seq<Row>, test: Row, key: ResourceKey, h: Row -> Row, kp: real, kv: real, e: real)
    requires m.Lawful() && kp > 0.0 && kv > 0.0 && Rescales(h, key, kp, kv)
    ensures PossibleError(m, Map(h, train), h(test), key, e) <==> PossibleError(m, train, test, key, e)
  {
    hide Possible, Mape, KeyVal, PeriodForKey, MathLib.Lawful;
    var period, y := PeriodForKey(test, key), KeyVal(test, key);
    var y', period' := KeyVal(h(test), key), PeriodForKey(h(test), key);
    PossibleOfScaledRows(m, train, key, test.loadValue, period, h, kp, kv);
    assert h(test).loadValue == test.loadValue && period' == Times(kp, period) && y' == kv * y;
    if u :| Possible(m, train, test.loadValue, period, key, u) && e == Mape(y, u) {
      var v := kv * u;
      MapeUnitFree(kv, y, u, y', v);
      assert Possible(m, Map(h, train), test.loadValue, period', key, v);
    }
    if v :| Possible(m, Map(h, train), test.loadValue, period', key, v) && e == Mape(y', v) {
      var u := v / kv;
      assert v == kv * u;
      MapeUnitFree(kv, y, u, y', v);
      assert Possible(m, train, test.loadValue, period, key, u);
    }
  }

  lemma PossibleMeanUnitFree(
      m: MathLib, rows: seq<Row>, key: ResourceKey, h: Row -> Row, kp: real, kv: real, o: Option<real>)
    requires m.Lawful() && kp > 0.0 && kv > 0.0 && Rescales(h, key, kp, kv)
    ensures PossibleMean(m, Map(h, rows), key, o) <==> PossibleMean(m, rows, key, o)
  {
    hide PossibleError, Rescales, MathLib.Lawful, MeanOf;
    forall errs: seq<real> | |errs| == |rows|
      ensures PossibleErrors(m, Map(h, rows), key, errs) <==> PossibleErrors(m, rows, key, errs)
    {
      forall i | 0 <= i < |rows|
        ensures PossibleError(m, Without(Map(h, rows), i), h(rows[i]), key, errs[i])
          <==> PossibleError(m, Without(rows, i), rows[i], key, errs[i])
      {
        WithoutMap(h, rows, i);
        PossibleErrorUnitFree(m, Without(rows, i), rows[i], key, h, kp, kv, errs[i]);
      }
    }
    hide PossibleErrors;
  }

  lemma WithoutPositive(rows: seq<Row>, key: ResourceKey, i: nat)
    requires i < |rows| && PositivePeriods(rows, key)
    ensures PositivePeriods(Without(rows, i), key)
  {
    hide KeyVal, PeriodForKey;
    forall r | r in Without(rows, i) ensures r in rows {
      WithoutMember(rows, i, r);
    }
  }

  /** The mean leave-one-out error has no unit: neither measuring values nor measuring time in other units
      changes it. */
  lemma MeanErrorUnitFree(m: MathLib, rows: seq<Row>, key: ResourceKey, k: real)
    requires m.Lawful() && k > 0.0 && PositivePeriods(rows, key)
    ensures MeanError(m, Map(ScaleValues(k), rows), key) == MeanError(m, rows, key)
    ensures MeanError(m, Map(ScalePeriods(k), rows), key) == MeanError(m, rows, key)
    ensures forall o :: PossibleMean(m, rows, key, o) <==> PossibleMean(m, Map(ScaleValues(k), rows), key, o)
    ensures forall o :: PossibleMean(m, rows, key, o) <==> PossibleMean(m, Map(ScalePeriods(k), rows), key, o)
  {
    hide PossibleMean, ErrorSum, Rescales, PositivePeriods, MathLib.Lawful, ScaleValues, ScalePeriods;
    ValuesRescale(k, key);
    PeriodsRescale(k, key);
    ErrorSumUnitFree(m, rows, key, ScaleValues(k), 1.0, k, |rows|);
    ErrorSumUnitFree(m, rows, key, ScalePeriods(k), k, 1.0, |rows|);
    forall o ensures
      && (PossibleMean(m, rows, key, o) <==> PossibleMean(m, Map(ScaleValues(k), rows), key, o))
      && (PossibleMean(m, rows, key, o) <==> PossibleMean(m, Map(ScalePeriods(k), rows), key, o))
    {
      PossibleMeanUnitFree(m, rows, key, ScaleValues(k), 1.0, k, o);
      PossibleMeanUnitFree(m, rows, key, ScalePeriods(k), k, 1.0, o);
    }
  }
}
