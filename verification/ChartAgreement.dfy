/** When the page's charts and the server agree: the filter of obs-advisor/charts.html leaves calibration runs
    out, and the server's estimate does not. */
module ChartAgreement {
  import opened Collections
  import opened Sorting
  import opened LeastSquares
  import opened Interpolation
  import opened LeavingOut
  import opened PowerLaw
  import opened CapacityModel
  import opened CapacityTheorems
  import opened BrowserChart

  // ---------------------------------------------------------------------------------------
  // Repeated loads

  function LoadOf(key: ResourceKey): Row -> Option<real> {
    (r: Row) => if KeyVal(r, key) <= 0.0 then None else Some(r.loadValue)
  }

  /** The loads of the contributing rows. */
  function Loads(rows: seq<Row>, key: ResourceKey): seq<real> {
    FilterMap(LoadOf(key), rows)
  }

  ghost predicate RepeatsLowest(loads: seq<real>) {
    exists v :: multiset(loads)[v] >= 2 && forall w :: w in loads ==> v <= w
  }

  ghost predicate RepeatsHighest(loads: seq<real>) {
    exists v :: multiset(loads)[v] >= 2 && forall w :: w in loads ==> w <= v
  }

  lemma LoadsOfPoints(m: MathLib, rows: seq<Row>, key: ResourceKey, target: real)
    requires PositivePeriods(rows, key)
    ensures Loads(rows, key) == Map(X, ScaledPoints(m, rows, key, target))
  {
    hide FilterMap, Alpha, Rescale, KeyVal, PeriodForKey;
    var f, g, h := LoadOf(key), ScaledPoint(m, key, target, Alpha(m, rows, key)), (r: Row) => r;
    forall r | r in rows ensures f(h(r)) == MapOption(X, g(r)) {}
    FilterMapTransform(f, g, h, X, rows);
    assert Map(h, rows) == rows;
  }

  lemma RepeatsPermuted(a: seq<real>, b: seq<real>)
    requires Permutation(a, b)
    ensures RepeatsLowest(a) <==> RepeatsLowest(b)
    ensures RepeatsHighest(a) <==> RepeatsHighest(b)
  {
    PermutationLength(a, b);
  }

  lemma TwiceFirstIff(s: seq<Point>)
    requires Ordered(X, s)
    ensures TwiceFirst(s) <==> RepeatsLowest(Map(X, s))
  {
    var loads := Map(X, s);
    if TwiceFirst(s) {
      RepeatedCount(loads, 0, 1);
      forall w | w in loads ensures loads[0] <= w {
        var k :| 0 <= k < |s| && loads[k] == w;
        OrderedAt(s, 0, k);
      }
    }
    if v :| multiset(loads)[v] >= 2 && forall w :: w in loads ==> v <= w {
      var i, j := CountTwice(loads, v);
      assert loads[0] in loads;
      OrderedAt(s, 0, 1);
      OrderedAt(s, 1, j);
    }
  }

  lemma TwiceLastIff(s: seq<Point>)
    requires Ordered(X, s)
    ensures TwiceLast(s) <==> RepeatsHighest(Map(X, s))
  {
    var loads, n := Map(X, s), |s|;
    if TwiceLast(s) {
      RepeatedCount(loads, n - 2, n - 1);
      forall w | w in loads ensures w <= loads[n - 1] {
        var k :| 0 <= k < |s| && loads[k] == w;
        OrderedAt(s, k, n - 1);
      }
    }
    if v :| multiset(loads)[v] >= 2 && forall w :: w in loads ==> w <= v {
      var i, j := CountTwice(loads, v);
      assert loads[n - 1] in loads;
      OrderedAt(s, i, n - 2);
      OrderedAt(s, n - 2, n - 1);
    }
  }

  /** The sorted points have two at the lowest load exactly when two contributing rows have it. */
  lemma TwiceIff(m: MathLib, rows: seq<Row>, key: ResourceKey, target: real)
    requires PositivePeriods(rows, key)
    ensures
      var s := Sorted(X, ScaledPoints(m, rows, key, target));
      && (TwiceFirst(s) <==> RepeatsLowest(Loads(rows, key)))
      && (TwiceLast(s) <==> RepeatsHighest(Loads(rows, key)))
  {
    hide ScaledPoints, Sorted, Loads, RepeatsLowest, RepeatsHighest, TwiceFirst, TwiceLast;
    var points := ScaledPoints(m, rows, key, target);
    var s := Sorted(X, points);
    SortedSorts(X, points);
    LoadsOfPoints(m, rows, key, target);
    MapPermutation(X, s, points);
    RepeatsPermuted(Map(X, s), Map(X, points));
    TwiceFirstIff(s);
    TwiceLastIff(s);
  }

  // ---------------------------------------------------------------------------------------
  // The condition

  /** The chart's points, in order. */
  function Charted(rows: seq<Row>, key: ResourceKey): seq<Point> {
    Sorted(X, ChartPoints(Baseline(rows), key))
  }

  /** Every possible answer for seven days, from all matching rows, is what the chart shows. */
  ghost predicate Agrees(m: MathLib, rows: seq<Row>, key: ResourceKey) {
    forall x, u :: Possible(m, rows, x, 7.0, key, u) ==> u == Unit(key) * ChartCurve(rows, key, x)
  }

  ghost predicate LeftOut(rows: seq<Row>, key: ResourceKey, r: Row) {
    r in rows && KeyVal(r, key) > 0.0 && !IsBaseline(r)
  }

  /** Rescaled to seven days, the row lies on the curve the chart shows. */
  ghost predicate OnChart(m: MathLib, rows: seq<Row>, key: ResourceKey, r: Row)
    requires PeriodForKey(r, key) != 0.0
  {
    Unit(key) * ChartCurve(rows, key, r.loadValue)
      == Rescale(m, KeyVal(r, key), 7.0, PeriodForKey(r, key), Alpha(m, rows, key))
  }

  ghost predicate AllOnChart(m: MathLib, rows: seq<Row>, key: ResourceKey)
    requires PositivePeriods(rows, key)
  {
    forall r :: LeftOut(rows, key, r) ==> OnChart(m, rows, key, r)
  }

  /** Where the lowest or the highest contributing load is repeated, the two chart points at that end have
      the same value: the server's curve is flat beyond such an end. */
  ghost predicate EndsAgree(rows: seq<Row>, key: ResourceKey) {
    && (RepeatsLowest(Loads(rows, key)) ==> FlatHead(Charted(rows, key)))
    && (RepeatsHighest(Loads(rows, key)) ==> FlatLast(Charted(rows, key)))
  }

  /** The chart's points in the server's unit, in order. */
  function Kept(m: MathLib, rows: seq<Row>, key: ResourceKey): seq<Point> {
    Sorted(X, FilterMap(ScaledPoint(m, key, 7.0, Alpha(m, rows, key)), Baseline(rows)))
  }

  lemma KeptIsChart(m: MathLib, rows: seq<Row>, key: ResourceKey)
    requires m.Lawful() && key != DiskBytes
    ensures Kept(m, rows, key) == Map(ScaleY(Unit(key)), Charted(rows, key))
    ensures forall x :: Max(0.0, Curve(Kept(m, rows, key), x)) == Unit(key) * ChartCurve(rows, key, x)
  {
    hide FilterMap, ScaledPoint, Alpha, Sorted, Curve, ChartPoints, Baseline, ScaleY, MathLib.Lawful;
    BaselinePoints(m, rows, key, Alpha(m, rows, key));
    SortedScale(Unit(key), ChartPoints(Baseline(rows), key));
    forall x ensures Max(0.0, Curve(Kept(m, rows, key), x)) == Unit(key) * ChartCurve(rows, key, x) {
      ClampedCurveScale(Unit(key), ChartPoints(Baseline(rows), key), x);
    }
  }

  lemma FlatInUnits(c: real, p: seq<Point>)
    requires c > 0.0
    ensures FlatHead(Map(ScaleY(c), p)) <==> FlatHead(p)
    ensures FlatLast(Map(ScaleY(c), p)) <==> FlatLast(p)
  {
    if |p| >= 2 {
      TimesOrder(c, p[0].y, p[1].y);
      TimesOrder(c, p[|p| - 2].y, p[|p| - 1].y);
    }
  }

  lemma KeptRefines(m: MathLib, rows: seq<Row>, key: ResourceKey)
    requires Consistent(X, ScaledPoints(m, rows, key, 7.0))
    ensures Refines(Sorted(X, ScaledPoints(m, rows, key, 7.0)), Kept(m, rows, key))
  {
    hide FilterMap, ScaledPoint, Alpha, Sorted, Ordered, Consistent;
    var f := ScaledPoint(m, key, 7.0, Alpha(m, rows, key));
    var all, kept := FilterMap(f, rows), FilterMap(f, Baseline(rows));
    FilterMapAmong(f, BaselineOnly(), rows);
    SortedSorts(X, all);
    SortedSorts(X, kept);
    ConsistentPermutation(X, Sorted(X, all), all);
  }

  /** A contributing baseline row is one of the kept points. */
  lemma KeptPoint(m: MathLib, rows: seq<Row>, key: ResourceKey, r: Row)
    requires PositivePeriods(rows, key) && r in rows && KeyVal(r, key) > 0.0 && IsBaseline(r)
    ensures Point(r.loadValue, Rescale(m, KeyVal(r, key), 7.0, PeriodForKey(r, key), Alpha(m, rows, key)))
      in Kept(m, rows, key)
  {
    hide FilterMap, Alpha, Rescale, KeyVal, PeriodForKey, Sorted, IsBaseline;
    var alpha := Alpha(m, rows, key);
    var p := Point(r.loadValue, Rescale(m, KeyVal(r, key), 7.0, PeriodForKey(r, key), alpha));
    assert ScaledPoint(m, key, 7.0, alpha)(r) == Some(p);
    BaselineMember(rows, r);
    FilterMapMembers(ScaledPoint(m, key, 7.0, alpha), Baseline(rows), p);
    SortedSorts(X, FilterMap(ScaledPoint(m, key, 7.0, alpha), Baseline(rows)));
    PermutationLength(Kept(m, rows, key), FilterMap(ScaledPoint(m, key, 7.0, alpha), Baseline(rows)));
  }

  /** When the left-out rows lie on the chart, every point lies on the curve of the kept ones. */
  lemma PointOnChart(m: MathLib, rows: seq<Row>, key: ResourceKey, p: Point)
    requires m.Lawful() && key != DiskBytes && PositivePeriods(rows, key) && AllOnChart(m, rows, key)
    requires Consistent(X, ScaledPoints(m, rows, key, 7.0)) && p in ScaledPoints(m, rows, key, 7.0)
    ensures Curve(Kept(m, rows, key), p.x) == p.y
  {
    hide ScaledPoints, Alpha, Rescale, KeyVal, PeriodForKey, Sorted, Curve, Kept, ChartCurve, IsBaseline, Consistent;
    hide MathLib.Lawful;
    var c := Kept(m, rows, key);
    var r := RowOfPoint(m, rows, key, 7.0, p);
    if IsBaseline(r) {
      KeptPoint(m, rows, key, r);
      KeptRefines(m, rows, key);
      RefinesMembers(Sorted(X, ScaledPoints(m, rows, key, 7.0)), c);
      var k :| 0 <= k < |c| && c[k] == p;
      CurveAtKnot(c, k);
    } else {
      assert LeftOut(rows, key, r);
      ScaledPointsPositive(m, rows, key, 7.0, p);
      KeptIsChart(m, rows, key);
      assert Max(0.0, Curve(c, p.x)) == Unit(key) * ChartCurve(rows, key, p.x);
    }
  }

  /** All points lie on the curve of the kept ones exactly when the left-out rows lie on the chart. */
  lemma OnChartIff(m: MathLib, rows: seq<Row>, key: ResourceKey)
    requires m.Lawful() && key != DiskBytes && PositivePeriods(rows, key)
    requires Consistent(X, ScaledPoints(m, rows, key, 7.0))
    ensures (forall p :: p in ScaledPoints(m, rows, key, 7.0) ==> Curve(Kept(m, rows, key), p.x) == p.y)
      <==> AllOnChart(m, rows, key)
  {
    hide ScaledPoints, Alpha, Rescale, KeyVal, PeriodForKey, Sorted, Curve, Kept, ChartCurve, IsBaseline, Consistent;
    hide MathLib.Lawful;
    var points, c := ScaledPoints(m, rows, key, 7.0), Kept(m, rows, key);
    KeptIsChart(m, rows, key);
    if forall p :: p in points ==> Curve(c, p.x) == p.y {
      forall r | LeftOut(rows, key, r) ensures OnChart(m, rows, key, r) {
        PointOfRow(m, rows, key, 7.0, r);
        RescalePositive(m, KeyVal(r, key), 7.0, PeriodForKey(r, key), Alpha(m, rows, key));
        assert Max(0.0, Curve(c, r.loadValue)) == Unit(key) * ChartCurve(rows, key, r.loadValue);
      }
    }
    if AllOnChart(m, rows, key) {
      forall p | p in points ensures Curve(c, p.x) == p.y {
        PointOnChart(m, rows, key, p);
      }
    }
  }

  lemma AgreesAsCurves(m: MathLib, rows: seq<Row>, key: ResourceKey)
    requires m.Lawful() && key != DiskBytes && Consistent(X, ScaledPoints(m, rows, key, 7.0))
    ensures
      var s, c := Sorted(X, ScaledPoints(m, rows, key, 7.0)), Kept(m, rows, key);
      Agrees(m, rows, key) <==> forall x :: Max(0.0, Curve(s, x)) == Max(0.0, Curve(c, x))
  {
    hide ScaledPoints, Sorted, Curve, Kept, ChartCurve, Consistent, Possible, MathLib.Lawful;
    var s, c := Sorted(X, ScaledPoints(m, rows, key, 7.0)), Kept(m, rows, key);
    KeptIsChart(m, rows, key);
    if Agrees(m, rows, key) {
      forall x ensures Max(0.0, Curve(s, x)) == Max(0.0, Curve(c, x)) {
        EstimatePossible(m, rows, x, 7.0, key);
      }
    }
    if forall x :: Max(0.0, Curve(s, x)) == Max(0.0, Curve(c, x)) {
      forall x, u | Possible(m, rows, x, 7.0, key, u) ensures u == Unit(key) * ChartCurve(rows, key, x) {
        PossibleDetermined(m, rows, x, 7.0, key, u);
        assert Max(0.0, Curve(s, x)) == Max(0.0, Curve(c, x));
      }
    }
  }

  lemma DeterminedAgreesIff(m: MathLib, rows: seq<Row>, key: ResourceKey)
    requires m.Lawful() && key != DiskBytes && PositivePeriods(rows, key)
    requires Consistent(X, ScaledPoints(m, rows, key, 7.0))
    ensures Agrees(m, rows, key) <==> AllOnChart(m, rows, key) && EndsAgree(rows, key)
  {
    hide ScaledPoints, Sorted, Curve, Kept, Agrees, AllOnChart, Consistent, PositivePeriods, Refines, Charted, Loads;
    hide MathLib.Lawful, TwiceFirst, TwiceLast, FlatHead, FlatLast, RepeatsLowest, RepeatsHighest;
    var points, c := ScaledPoints(m, rows, key, 7.0), Kept(m, rows, key);
    var s := Sorted(X, points);
    SortedSorts(X, points);
    PermutationLength(s, points);
    forall p | p in s ensures p.y > 0.0 {
      ScaledPointsPositive(m, rows, key, 7.0, p);
    }
    KeptRefines(m, rows, key);
    AgreesAsCurves(m, rows, key);
    ClampedCurveIff(s, c);
    OnChartIff(m, rows, key);
    TwiceIff(m, rows, key, 7.0);
    KeptIsChart(m, rows, key);
    FlatInUnits(Unit(key), Charted(rows, key));
  }

  /** From all matching rows the server always answers what the chart shows, at every load and however it
      sorts, exactly when rows with equal loads agree, each contributing row the chart leaves out lies on the
      chart's curve, and the chart is flat at every end load that is repeated. */
  lemma ChartAgreesIff(m: MathLib, rows: seq<Row>, key: ResourceKey)
    requires m.Lawful() && key != DiskBytes && PositivePeriods(rows, key)
    ensures Agrees(m, rows, key)
      <==> LoadsAgree(m, rows, key) && AllOnChart(m, rows, key) && EndsAgree(rows, key)
  {
    hide ScaledPoints, AllOnChart, EndsAgree, LoadsAgree, Consistent, Possible, ChartCurve, MathLib.Lawful;
    ConsistentIff(m, rows, key, 7.0);
    EstimateDeterminedIff(m, rows, key, 7.0);
    if LoadsAgree(m, rows, key) {
      DeterminedAgreesIff(m, rows, key);
    }
  }

  // ---------------------------------------------------------------------------------------
  // What is drawn

  /** Neither end segment of the chart's points is vertical. */
  ghost predicate OpenEnds(rows: seq<Row>, key: ResourceKey) {
    !TwiceFirst(Charted(rows, key)) && !TwiceLast(Charted(rows, key))
  }

  /** Every possible answer is the number drawn. */
  ghost predicate DrawnAgrees(m: MathLib, rows: seq<Row>, key: ResourceKey) {
    forall x, u :: Possible(m, rows, x, 7.0, key, u) ==>
      exists v :: Drawn(Charted(rows, key), x) == Number(v) && u == Unit(key) * v
  }

  lemma OpenEndsDrawn(rows: seq<Row>, key: ResourceKey, x: real)
    requires OpenEnds(rows, key)
    ensures Drawn(Charted(rows, key), x) == Number(ChartCurve(rows, key, x))
  {
    hide Curve, Sorted, ChartPoints, Baseline;
  }

  /** A vertical end segment without a rise draws nothing. */
  lemma VerticalDrawn(c: seq<Point>, x: real)
    requires |c| >= 2
    requires (x == c[0].x && TwiceFirst(c)) || (x == c[|c| - 1].x && TwiceLast(c) && c[0].x < x)
    ensures Drawn(c, x) == NaN
  {
    hide Curve;
  }

  lemma DrawnNumber(m: MathLib, rows: seq<Row>, key: ResourceKey)
    requires DrawnAgrees(m, rows, key)
    ensures OpenEnds(rows, key)
  {
    hide Sorted, ChartPoints, Baseline, Drawn, Possible;
    var c := Charted(rows, key);
    SortedSorts(X, ChartPoints(Baseline(rows), key));
    if TwiceFirst(c) {
      EstimatePossible(m, rows, c[0].x, 7.0, key);
      VerticalDrawn(c, c[0].x);
      assert false;
    }
    if TwiceLast(c) {
      var n := |c|;
      OrderedAt(c, 0, n - 1);
      OrderedAt(c, 0, 1);
      OrderedAt(c, 1, n - 1);
      EstimatePossible(m, rows, c[n - 1].x, 7.0, key);
      VerticalDrawn(c, c[n - 1].x);
      assert false;
    }
  }

  /** The server always answers the number the page draws exactly when, in addition, neither end load of the
      chart is repeated: the browser divides by the width of an end segment without a guard. */
  lemma DrawnAgreesIff(m: MathLib, rows: seq<Row>, key: ResourceKey)
    requires m.Lawful() && key != DiskBytes && PositivePeriods(rows, key)
    ensures DrawnAgrees(m, rows, key) <==> Agrees(m, rows, key) && OpenEnds(rows, key)
  {
    hide Possible, ChartCurve, OpenEnds, Drawn, Charted, MathLib.Lawful;
    if DrawnAgrees(m, rows, key) {
      DrawnNumber(m, rows, key);
    }
    if OpenEnds(rows, key) {
      forall x ensures Drawn(Charted(rows, key), x) == Number(ChartCurve(rows, key, x)) {
        OpenEndsDrawn(rows, key, x);
      }
    }
  }

  // ---------------------------------------------------------------------------------------
  // Calibration runs

  /** A Loki or OpenSearch run kept for seven days; only its CPU matters here. */
  function Run(instrument: string, load: real, duration: real, cpu: real): Row {
    Row(instrument, "logs", load, 7.0, duration, cpu, 0.0, 0.0)
  }

  function CpuPoint(r: Row): Point {
    Point(r.loadValue, r.cpuCores)
  }

  lemma FilterMapThree<A, B>(f: A -> Option<B>, a: A, b: A, c: A)
    ensures FilterMap(f, [a, b, c]) == Single(f(a)) + Single(f(b)) + Single(f(c))
  {
    FilterMapPair(f, a, b);
    FilterMapStep(f, [a, b], c);
    assert [a, b] + [c] == [a, b, c];
  }

  /** Two short runs around a calibration run: what the server and what the chart work with. */
  lemma CalibrationPoints(m: MathLib, a: Row, b: Row, c: Row)
    requires m.Lawful() && a.cpuCores > 0.0 && b.cpuCores > 0.0 && c.cpuCores > 0.0
    requires IsBaseline(a) && IsBaseline(c) && b.retentionDays == 7.0 && !IsBaseline(b)
    ensures ScaledPoints(m, [a, b, c], CpuCores, 7.0) == [CpuPoint(a), CpuPoint(b), CpuPoint(c)]
    ensures ChartPoints(Baseline([a, b, c]), CpuCores) == [CpuPoint(a), CpuPoint(c)]
  {
    hide FilterMap, Alpha, MathLib.Lawful, Rescale, ScaledPoint;
    var alpha := Alpha(m, [a, b, c], CpuCores);
    OwnPoint(m, a, CpuCores, alpha);
    OwnPoint(m, b, CpuCores, alpha);
    OwnPoint(m, c, CpuCores, alpha);
    FilterMapThree(ScaledPoint(m, CpuCores, 7.0, alpha), a, b, c);
    FilterMapThree(BaselineOnly(), a, b, c);
    assert Baseline([a, b, c]) == [a, c];
    FilterMapPair(ChartPoint(CpuCores), a, c);
  }

  /** The chart of two runs. */
  lemma ChartOfTwo(rows: seq<Row>, p: Point, q: Point, x: real)
    requires ChartPoints(Baseline(rows), CpuCores) == [p, q] && p.x < q.x
    ensures ChartCurve(rows, CpuCores, x) == Max(0.0, Segment(p, q, x))
  {
    hide ChartPoints, Baseline, Curve, Sorted, Segment;
    var c := [p, q];
    assert Increasing(c);
    IncreasingOrdered(c);
    SortingUnique(X, c, c);
    CurveHead(c, x);
  }

  /** A day-long calibration run at a load of its own counts for the server and not for the chart. */
  lemma CalibrationRunMissed(m: MathLib)
    requires m.Lawful()
    ensures
      var rows := [Run("loki", 1.0, 10800.0, 1.0), Run("loki", 3.0, 86400.0, 10.0), Run("loki", 2.0, 10800.0, 2.0)];
      && (forall u :: Possible(m, rows, 3.0, 7.0, CpuCores, u) <==> u == 10.0)
      && ChartCurve(rows, CpuCores, 3.0) == 3.0
  {
    hide Possible, Alpha, Estimate, ChartCurve, MathLib.Lawful;
    var a, b, c := Run("loki", 1.0, 10800.0, 1.0), Run("loki", 3.0, 86400.0, 10.0), Run("loki", 2.0, 10800.0, 2.0);
    var rows := [a, b, c];
    CalibrationPoints(m, a, b, c);
    ChartOfTwo(rows, CpuPoint(a), CpuPoint(c), 3.0);
    assert b in rows;
    ReproducedIff(m, rows, CpuCores, b);
    EstimatePossible(m, rows, 3.0, 7.0, CpuCores);
  }

  /** OpenSearch at a thousand lines a second, with the CPU measured in the short run and in the day-long one,
      rounded: the repeated load leaves the server two answers, of which the chart shows one. */
  lemma CalibrationRepeatsLoad(m: MathLib)
    requires m.Lawful()
    ensures
      var rows := [Run("opensearch", 1000.0, 5400.0, 0.242), Run("opensearch", 1000.0, 86400.0, 1.217),
                   Run("opensearch", 2500.0, 5400.0, 0.498)];
      && Possible(m, rows, 1000.0, 7.0, CpuCores, 0.242)
      && Possible(m, rows, 1000.0, 7.0, CpuCores, 1.217)
      && ChartCurve(rows, CpuCores, 1000.0) == 0.242
  {
    hide ScaledPoints, Alpha, ChartCurve, ChartPoints, MathLib.Lawful;
    var a, b := Run("opensearch", 1000.0, 5400.0, 0.242), Run("opensearch", 1000.0, 86400.0, 1.217);
    var c := Run("opensearch", 2500.0, 5400.0, 0.498);
    var rows, p, q, r := [a, b, c], CpuPoint(a), CpuPoint(b), CpuPoint(c);
    CalibrationPoints(m, a, b, c);
    ChartOfTwo(rows, p, r, 1000.0);
    assert multiset([p, q, r]) == multiset([q, p, r]);
    assert IsSorting(X, [p, q, r], [p, q, r]) && IsSorting(X, [q, p, r], [p, q, r]);
    assert Curve([p, q, r], 1000.0) == 0.242 && Curve([q, p, r], 1000.0) == 1.217;
  }

  /** A calibration run that repeats the lowest load with the very same value: every left-out row lies on the
      chart, and still the server's curve is flat to the left where the chart's is not. */
  lemma CalibrationFlattensEnd(m: MathLib)
    requires m.Lawful()
    ensures
      var rows := [Run("loki", 1.0, 10800.0, 1.0), Run("loki", 1.0, 86400.0, 1.0), Run("loki", 2.0, 10800.0, 2.0)];
      && (forall u :: Possible(m, rows, 0.5, 7.0, CpuCores, u) <==> u == 1.0)
      && ChartCurve(rows, CpuCores, 0.5) == 0.5
  {
    hide Possible, Sorted, ScaledPoints, Alpha, ChartCurve, ChartPoints, MathLib.Lawful;
    var a, b, c := Run("loki", 1.0, 10800.0, 1.0), Run("loki", 1.0, 86400.0, 1.0), Run("loki", 2.0, 10800.0, 2.0);
    var rows, p, r := [a, b, c], CpuPoint(a), CpuPoint(c);
    CalibrationPoints(m, a, b, c);
    ChartOfTwo(rows, p, r, 0.5);
    var s := [p, p, r];
    assert IsSorting(X, s, s) && Consistent(X, s) && Curve(s, 0.5) == 1.0;
    SortingUnique(X, s, s);
    EstimatePossible(m, rows, 0.5, 7.0, CpuCores);
    forall u | Possible(m, rows, 0.5, 7.0, CpuCores, u) ensures u == 1.0 {
      PossibleDetermined(m, rows, 0.5, 7.0, CpuCores, u);
    }
  }
}
