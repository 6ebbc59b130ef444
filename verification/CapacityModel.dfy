/** The estimator of obs-advisor/server/capacitymodel/model.go: the retention exponent and the
    resource estimate, as functions and as the loops that compute them. */
module CapacityModel {
  import opened Collections
  import opened Sorting
  import opened LeastSquares
  import opened Interpolation
  import opened PowerLaw

  datatype Row = Row(
    instrument: string,
    workloadType: string,
    loadValue: real,
    retentionDays: real,
    durationSeconds: real,
    cpuCores: real,
    memPeakBytes: real,
    diskBytes: real)

  /** The three resource names; Unknown stands for every other string. */
  datatype ResourceKey = CpuCores | MemPeakBytes | DiskBytes | Unknown

  const GIB: real := 1073741824.0

  function KeyVal(r: Row, key: ResourceKey): real {
    match key
    case CpuCores => r.cpuCores
    case MemPeakBytes => r.memPeakBytes
    case DiskBytes => r.diskBytes
    case Unknown => 0.0
  }

  function MeasuredPeriodDays(r: Row): real {
    if r.durationSeconds > 0.0 then r.durationSeconds / 86400.0 else r.retentionDays
  }

  function PeriodForKey(r: Row, key: ResourceKey): real {
    if key == DiskBytes then MeasuredPeriodDays(r) else r.retentionDays
  }

  /** Every row that contributes to the resource was measured over a positive period. */
  ghost predicate PositivePeriods(rows: seq<Row>, key: ResourceKey) {
    forall r :: r in rows && KeyVal(r, key) > 0.0 ==> PeriodForKey(r, key) > 0.0
  }

  ghost predicate DistinctLoads(rows: seq<Row>) {
    forall i, j :: 0 <= i < j < |rows| ==> rows[i].loadValue != rows[j].loadValue
  }

  // ---------------------------------------------------------------------------------------
  // Grouping by period

  datatype Observation = Observation(period: real, value: real)

  function ObservationOf(key: ResourceKey): Row -> Option<Observation> {
    (r: Row) => if KeyVal(r, key) <= 0.0 then None else Some(Observation(PeriodForKey(r, key), KeyVal(r, key)))
  }

  function Observations(rows: seq<Row>, key: ResourceKey): seq<Observation> {
    FilterMap(ObservationOf(key), rows)
  }

  /** The different periods, in order of first appearance. */
  function Periods(obs: seq<Observation>): seq<real> {
    if |obs| == 0 then []
    else
      var rest, p := Periods(obs[..|obs| - 1]), obs[|obs| - 1].period;
      if p in rest then rest else rest + [p]
  }

  function ValueAt(period: real): Observation -> Option<real> {
    (o: Observation) => if o.period == period then Some(o.value) else None
  }

  function Group(obs: seq<Observation>, period: real): seq<real> {
    FilterMap(ValueAt(period), obs)
  }

  const Identity: real -> real := (v: real) => v

  /** The upper median. */
  function Median(vals: seq<real>): real {
    if |vals| == 0 then 0.0 else Sorted(Identity, vals)[|vals| / 2]
  }

  method MedianInPlace(vals: array<real>) returns (m: real)
    modifies vals
    ensures m == Median(old(vals[..]))
    ensures IsSorting(Identity, vals[..], old(vals[..]))
    ensures vals.Length > 0 ==> m == vals[vals.Length / 2]
    ensures forall i, j :: 0 <= i < j < vals.Length ==> vals[i] <= vals[j]
  {
    if vals.Length == 0 {
      return 0.0;
    }
    SortInPlace(vals, Identity);
    assert forall i, j :: 0 <= i < j < vals.Length ==> Identity(vals[..][i]) <= Identity(vals[..][j]);
    m := vals[vals.Length / 2];
  }

  // ---------------------------------------------------------------------------------------
  // The retention exponent

  /** The point of one period in the log-log plane. */
  function LogPoint(m: MathLib, obs: seq<Observation>): real -> Option<Point> {
    (period: real) =>
      var med := Median(Group(obs, period));
      if period > 0.0 && med > 0.0 then Some(Point(m.log(period), m.log(med))) else None
  }

  function LogPoints(m: MathLib, obs: seq<Observation>): seq<Point> {
    FilterMap(LogPoint(m, obs), Periods(obs))
  }

  /** The exponent assumed when all measurements share one period. */
  function SinglePeriodAlpha(key: ResourceKey): real {
    match key
    case DiskBytes => 1.0
    case MemPeakBytes => 0.25
    case _ => 0.15
  }

  /** The exponent assumed when no line can be fitted. */
  function UnfittedAlpha(key: ResourceKey): real {
    if key == DiskBytes then 1.0 else 0.2
  }

  function ClampAlpha(key: ResourceKey, alpha: real): real {
    match key
    case DiskBytes => Max(0.6, Min(1.4, alpha))
    case MemPeakBytes => Max(0.0, Min(0.8, alpha))
    case _ => Max(0.0, Min(0.6, alpha))
  }

  function AlphaOfPoints(pts: seq<Point>, key: ResourceKey): real {
    if |pts| < 2 then UnfittedAlpha(key)
    else if Var(pts) == 0.0 then UnfittedAlpha(key)
    else ClampAlpha(key, Cov(pts) / Var(pts))
  }

  function AlphaOfObservations(m: MathLib, obs: seq<Observation>, key: ResourceKey): real {
    if |Periods(obs)| < 2 then SinglePeriodAlpha(key) else AlphaOfPoints(LogPoints(m, obs), key)
  }

  function Alpha(m: MathLib, rows: seq<Row>, key: ResourceKey): real {
    AlphaOfObservations(m, Observations(rows, key), key)
  }

  // ---------------------------------------------------------------------------------------
  // The estimate

  function Rescale(m: MathLib, base: real, target: real, period: real, alpha: real): real
    requires period != 0.0
  {
    base * m.pow(target / period, alpha)
  }

  /** A measurement rescaled from its own period to the target period. PositivePeriods excludes a
      contributing row without a period. */
  function ScaledPoint(m: MathLib, key: ResourceKey, target: real, alpha: real): Row -> Option<Point> {
    (r: Row) =>
      if KeyVal(r, key) <= 0.0 || PeriodForKey(r, key) == 0.0 then None
      else Some(Point(r.loadValue, Rescale(m, KeyVal(r, key), target, PeriodForKey(r, key), alpha)))
  }

  function ScaledPoints(m: MathLib, rows: seq<Row>, key: ResourceKey, target: real): seq<Point> {
    FilterMap(ScaledPoint(m, key, target, Alpha(m, rows, key)), rows)
  }

  /** What the code computes when PositivePeriods holds and the ordering of the points is determined. */
  function Estimate(m: MathLib, rows: seq<Row>, load: real, target: real, key: ResourceKey): real {
    Max(0.0, Curve(Sorted(X, ScaledPoints(m, rows, key, target)), load))
  }

  /** A value the code may return: some outcome of the unstable sort leads to it. */
  ghost predicate Possible(m: MathLib, rows: seq<Row>, load: real, target: real, key: ResourceKey, r: real) {
    exists s :: IsSorting(X, s, ScaledPoints(m, rows, key, target)) && r == Max(0.0, Curve(s, load))
  }

  // ---------------------------------------------------------------------------------------
  // The loops

  lemma {:induction false} PeriodsNoDuplicates(obs: seq<Observation>)
    ensures NoDuplicates(Periods(obs))
    ensures forall p :: p in Periods(obs) <==> exists o :: o in obs && o.period == p
    decreases |obs|
  {
    if |obs| > 0 {
      var init, last := obs[..|obs| - 1], obs[|obs| - 1];
      PeriodsNoDuplicates(init);
      assert obs == init + [last];
    }
  }

  lemma PeriodsStep(obs: seq<Observation>, o: Observation)
    ensures Periods(obs + [o]) == if o.period in Periods(obs) then Periods(obs) else Periods(obs) + [o.period]
  {
    assert (obs + [o])[..|obs|] == obs;
  }

  /** The map built by the grouping loop holds, for every period, its group. */
  ghost predicate Groups(byRet: map<real, seq<real>>, obs: seq<Observation>) {
    && (forall p :: p in byRet <==> p in Periods(obs))
    && (forall p :: p in byRet ==> byRet[p] == Group(obs, p))
  }

  lemma GroupsStep(byRet: map<real, seq<real>>, obs: seq<Observation>, o: Observation)
    requires Groups(byRet, obs)
    ensures Groups(byRet[o.period := (if o.period in byRet then byRet[o.period] else []) + [o.value]], obs + [o])
  {
    PeriodsStep(obs, o);
    if o.period !in byRet {
      EmptyGroup(obs, o.period);
    }
    forall p ensures Group(obs + [o], p) == Group(obs, p) + (if p == o.period then [o.value] else []) {
      FilterMapStep(ValueAt(p), obs, o);
    }
  }

  lemma {:induction false} EmptyGroup(obs: seq<Observation>, period: real)
    requires period !in Periods(obs)
    ensures Group(obs, period) == []
    decreases |obs|
  {
    if |obs| > 0 {
      EmptyGroup(obs[..|obs| - 1], period);
    }
  }

  method GroupByPeriod(rows: array<Row>, key: ResourceKey) returns (byRet: map<real, seq<real>>)
    ensures Groups(byRet, Observations(rows[..], key))
  {
    byRet := map[];
    for i := 0 to rows.Length
      invariant Groups(byRet, Observations(rows[..i], key))
    {
      var r := rows[i];
      var val := KeyVal(r, key);
      assert rows[..i + 1] == rows[..i] + [r];
      FilterMapStep(ObservationOf(key), rows[..i], r);
      if val <= 0.0 {
        assert Observations(rows[..i + 1], key) == Observations(rows[..i], key);
        continue;
      }
      var period := PeriodForKey(r, key);
      GroupsStep(byRet, Observations(rows[..i], key), Observation(period, val));
      byRet := byRet[period := (if period in byRet then byRet[period] else []) + [val]];
    }
    assert rows[..rows.Length] == rows[..];
  }

  lemma GroupsCount(byRet: map<real, seq<real>>, obs: seq<Observation>)
    requires Groups(byRet, obs)
    ensures |byRet| == |Periods(obs)|
  {
    PeriodsNoDuplicates(obs);
    forall p ensures p in byRet.Keys <==> p in Periods(obs) {
      assert p in byRet.Keys <==> p in byRet;
    }
    KeysCount(byRet.Keys, Periods(obs));
  }

  lemma {:induction false} KeysCount<T>(keys: set<T>, s: seq<T>)
    requires NoDuplicates(s) && forall p :: p in keys <==> p in s
    ensures |keys| == |s|
    decreases |s|
  {
    if |s| == 0 {
      assert forall p :: p !in keys;
      assert keys == {};
    } else {
      var last := s[|s| - 1];
      assert s == s[..|s| - 1] + [last];
      KeysCount(keys - {last}, s[..|s| - 1]);
    }
  }

  /** Some element: which one is left open. */
  method Pick<T>(keys: set<T>) returns (k: T)
    requires keys != {}
    ensures k in keys
  {
    k :| k in keys;
  }

  /** The body of the loop over the groups. */
  method PointOfGroup(m: MathLib, ret: real, vals: seq<real>, ghost obs: seq<Observation>) returns (p: Option<Point>)
    requires vals == Group(obs, ret)
    ensures p == LogPoint(m, obs)(ret)
  {
    hide Median, Group;
    var a := new real[|vals|](i requires 0 <= i < |vals| => vals[i]);
    assert a[..] == vals;
    var med := MedianInPlace(a);
    if ret > 0.0 && med > 0.0 {
      p := Some(Point(m.log(ret), m.log(med)));
    } else {
      p := None;
    }
  }

  /** Any duplicate-free visit of all groups gives the same points, up to order. */
  lemma VisitOrder(m: MathLib, byRet: map<real, seq<real>>, obs: seq<Observation>, order: seq<real>)
    requires Groups(byRet, obs) && NoDuplicates(order) && forall p :: p in order <==> p in byRet
    ensures Permutation(FilterMap(LogPoint(m, obs), order), LogPoints(m, obs))
  {
    hide LogPoint, FilterMap;
    PeriodsNoDuplicates(obs);
    forall p ensures p in order <==> p in Periods(obs) {
      assert p in byRet <==> p in Periods(obs);
    }
    NoDuplicatesPermutation(order, Periods(obs));
    FilterMapPermutation(LogPoint(m, obs), order, Periods(obs));
  }

  /** Visits the groups in an arbitrary order, as Go's map iteration does. */
  method CollectLogPoints(m: MathLib, byRet: map<real, seq<real>>, ghost obs: seq<Observation>)
    returns (pts: seq<Point>)
    requires Groups(byRet, obs)
    ensures Permutation(pts, LogPoints(m, obs))
  {
    pts := [];
    var remaining := byRet.Keys;
    ghost var order: seq<real> := [];
    assert FilterMap(LogPoint(m, obs), order) == [];
    hide FilterMap, LogPoint, LogPoints, Group, Periods, Permutation;
    while remaining != {}
      invariant forall p :: p in remaining ==> p in byRet
      invariant forall p :: p in order <==> p in byRet && p !in remaining
      invariant NoDuplicates(order)
      invariant pts == FilterMap(LogPoint(m, obs), order)
      decreases remaining
    {
      var ret := Pick(remaining);
      assert ret !in order;
      remaining := remaining - {ret};
      var p := PointOfGroup(m, ret, byRet[ret], obs);
      FilterMapStep(LogPoint(m, obs), order, ret);
      order := order + [ret];
      if p.Some? {
        pts := pts + [p.value];
      }
    }
    VisitOrder(m, byRet, obs, order);
  }

  lemma DeviationAt(p: Point, a: real, b: real)
    ensures Deviation(X, Y, a, b)(p) == (p.x - a) * (p.y - b)
    ensures Deviation(X, X, a, a)(p) == (p.x - a) * (p.x - a)
  {
  }

  method Means(pts: seq<Point>) returns (xMean: real, yMean: real)
    requires |pts| > 0
    ensures xMean == Mean(X, pts) && yMean == Mean(Y, pts)
  {
    xMean, yMean := 0.0, 0.0;
    for i := 0 to |pts|
      invariant xMean == SumOf(X, pts[..i]) && yMean == SumOf(Y, pts[..i])
    {
      assert pts[..i + 1] == pts[..i] + [pts[i]];
      SumOfStep(X, pts[..i], pts[i]);
      SumOfStep(Y, pts[..i], pts[i]);
      xMean, yMean := xMean + pts[i].x, yMean + pts[i].y;
    }
    assert pts[..|pts|] == pts;
    xMean, yMean := xMean / |pts| as real, yMean / |pts| as real;
  }

  method Sums(pts: seq<Point>) returns (cov: real, vr: real)
    requires |pts| > 0
    ensures cov == Cov(pts) && vr == Var(pts)
  {
    var xMean, yMean := Means(pts);
    cov, vr := 0.0, 0.0;
    assert SumOf(Deviation(X, Y, xMean, yMean), pts[..0]) == SumOf(Deviation(X, X, xMean, xMean), pts[..0]) == 0.0;
    hide SumOf, Mean, Deviation;
    for i := 0 to |pts|
      invariant cov == SumOf(Deviation(X, Y, xMean, yMean), pts[..i])
      invariant vr == SumOf(Deviation(X, X, xMean, xMean), pts[..i])
    {
      var p := pts[i];
      assert pts[..i + 1] == pts[..i] + [p];
      SumOfStep(Deviation(X, Y, xMean, yMean), pts[..i], p);
      SumOfStep(Deviation(X, X, xMean, xMean), pts[..i], p);
      DeviationAt(p, xMean, yMean);
      cov := cov + (p.x - xMean) * (p.y - yMean);
      vr := vr + (p.x - xMean) * (p.x - xMean);
    }
    assert pts[..|pts|] == pts;
  }

  /** estimateAlphaByRetention: whatever order the map is visited in, the exponent is Alpha. */
  method EstimateAlphaByRetention(m: MathLib, rows: array<Row>, key: ResourceKey) returns (alpha: real)
    ensures alpha == Alpha(m, rows[..], key)
  {
    ghost var obs := Observations(rows[..], key);
    var byRet := GroupByPeriod(rows, key);
    GroupsCount(byRet, obs);
    if |byRet| < 2 {
      return SinglePeriodAlpha(key);
    }
    var pts := CollectLogPoints(m, byRet, obs);
    PermutationLength(pts, LogPoints(m, obs));
    if |pts| < 2 {
      return UnfittedAlpha(key);
    }
    OrderInvariant(pts, LogPoints(m, obs));
    var cov, vr := Sums(pts);
    if vr == 0.0 {
      return UnfittedAlpha(key);
    }
    alpha := ClampAlpha(key, cov / vr);
  }

  /** estimateResource: the outcome is the clamped curve through some ordering of the rescaled
      rows, and it is Estimate whenever that ordering is determined. */
  method EstimateResource(m: MathLib, rows: array<Row>, load: real, target: real, key: ResourceKey) returns (r: real)
    requires PositivePeriods(rows[..], key)
    ensures Possible(m, rows[..], load, target, key, r)
    ensures Consistent(X, ScaledPoints(m, rows[..], key, target)) ==> r == Estimate(m, rows[..], load, target, key)
  {
    var alpha := EstimateAlphaByRetention(m, rows, key);
    var points: seq<Point> := [];
    for i := 0 to rows.Length
      invariant points == FilterMap(ScaledPoint(m, key, target, alpha), rows[..i])
    {
      var row := rows[i];
      assert rows[..i + 1] == rows[..i] + [row];
      FilterMapStep(ScaledPoint(m, key, target, alpha), rows[..i], row);
      var base := KeyVal(row, key);
      if base <= 0.0 {
        continue;
      }
      assert row in rows[..];
      points := points + [Point(row.loadValue, Rescale(m, base, target, PeriodForKey(row, key), alpha))];
    }
    assert rows[..rows.Length] == rows[..];
    var a := new Point[|points|](i requires 0 <= i < |points| => points[i]);
    assert a[..] == points;
    var v := Interpolate(a, load);
    r := Max(0.0, v);
  }
}
