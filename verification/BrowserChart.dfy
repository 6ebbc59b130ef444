/** The browser's own interpolant, `interp` and `modelLine` of obs-advisor/charts.html, against the
    server's, and what its charts show. */
module BrowserChart {
  import opened Collections
  import opened Sorting
  import opened LeastSquares
  import opened Interpolation
  import opened PowerLaw
  import opened CapacityModel
  import opened CapacityTheorems

  /** A JavaScript number: the finite ones are exact reals here. */
  datatype JsNumber = Number(value: real) | PosInf | NegInf | NaN

  /** What dividing by zero yields for a numerator, and adding a finite number leaves alone. */
  function Diverges(numerator: real): JsNumber {
    if numerator > 0.0 then PosInf else if numerator < 0.0 then NegInf else NaN
  }

  function Rise(p0: Point, p1: Point, x: real): real {
    (p1.y - p0.y) * (x - p0.x)
  }

  function Line(p0: Point, p1: Point, x: real): JsNumber {
    if p1.x - p0.x == 0.0 then Diverges(Rise(p0, p1, x))
    else Number(p0.y + (p1.y - p0.y) * (x - p0.x) / (p1.x - p0.x))
  }

  /** Math.max(0, n) */
  function MaxZero(n: JsNumber): JsNumber {
    match n
    case Number(v) => Number(Max(0.0, v))
    case NegInf => Number(0.0)
    case _ => n
  }

  lemma LineIsSegment(p0: Point, p1: Point, x: real)
    requires p0.x != p1.x
    ensures Line(p0, p1, x) == Number(Segment(p0, p1, x))
  {
    SameLine(p0.x, p0.y, p1.x, p1.y, x, Line(p0, p1, x).value, Segment(p0, p1, x));
  }

  lemma SameLine(x0: real, y0: real, x1: real, y1: real, x: real, u: real, v: real)
    requires x0 != x1
    requires u == y0 + (y1 - y0) * (x - x0) / (x1 - x0)
    requires v == y0 + ((x - x0) / (x1 - x0)) * (y1 - y0)
    ensures u == v
  {
    ProductOverDivisor(y1 - y0, x - x0, x1 - x0);
  }

  lemma ProductOverDivisor(dy: real, d: real, dx: real)
    requires dx != 0.0
    ensures dy * d / dx == (d / dx) * dy
  {
    var t := d / dx;
    assert t * dx == d;
    QuotientUnique(dy * d, dx, t * dy);
  }

  lemma QuotientUnique(a: real, b: real, q: real)
    requires b != 0.0 && q * b == a
    ensures a / b == q
  {
  }

  /** The segments the browser divides by have different ends. */
  ghost predicate Drawable(pts: seq<Point>, x: real) {
    var n := |pts|;
    n < 2 || (if x <= pts[0].x then pts[0].x != pts[1].x
              else if x >= pts[n - 1].x then pts[n - 2].x != pts[n - 1].x
              else true)
  }

  /** The rise of the end segment that is extended to x. */
  ghost function EndRise(pts: seq<Point>, x: real): real
    requires |pts| >= 2
  {
    if x <= pts[0].x then Rise(pts[0], pts[1], x) else Rise(pts[|pts| - 2], pts[|pts| - 1], x)
  }

  lemma SignOfRise(dy: real, d: real, z: real)
    requires z == dy * d
    ensures d < 0.0 ==> (z > 0.0 <==> dy < 0.0) && (z < 0.0 <==> dy > 0.0)
    ensures d > 0.0 ==> (z > 0.0 <==> dy > 0.0) && (z < 0.0 <==> dy < 0.0)
    ensures d == 0.0 ==> z == 0.0
  {
    if d < 0.0 {
      SignOfProduct(-dy, -d, z);
    } else if d > 0.0 {
      SignOfProduct(dy, d, z);
    }
  }

  /** Where an end segment is vertical, the rise and the side of x decide. */
  lemma DivergesAtEnd(pts: seq<Point>, x: real)
    requires Ordered(X, pts) && !Drawable(pts, x)
    ensures x < pts[0].x ==>
      Diverges(EndRise(pts, x)) == if pts[1].y < pts[0].y then PosInf else if pts[1].y > pts[0].y then NegInf else NaN
    ensures x == pts[0].x ==> Diverges(EndRise(pts, x)) == NaN
    ensures x > pts[0].x ==>
      var rise := pts[|pts| - 1].y - pts[|pts| - 2].y;
      Diverges(EndRise(pts, x))
        == if x == pts[|pts| - 1].x || rise == 0.0 then NaN else if rise > 0.0 then PosInf else NegInf
  {
    var n := |pts|;
    SignOfRise(pts[1].y - pts[0].y, x - pts[0].x, Rise(pts[0], pts[1], x));
    SignOfRise(pts[n - 1].y - pts[n - 2].y, x - pts[n - 2].x, Rise(pts[n - 2], pts[n - 1], x));
  }

  /** On ordered points, duplicates included, the browser yields a finite number exactly when the end
      segment it extends is not vertical, and that number is the server's. Otherwise the rise of that
      segment decides between the infinities and NaN. The closing return is never reached. */
  method Interp(pts: seq<Point>, x: real) returns (r: JsNumber)
    requires Ordered(X, pts)
    ensures r.Number? <==> Drawable(pts, x)
    ensures r.Number? ==> r.value == Curve(pts, x)
    ensures !Drawable(pts, x) ==> r == Diverges(EndRise(pts, x))
    ensures !Drawable(pts, x) && x < pts[0].x ==>
      r == if pts[1].y < pts[0].y then PosInf else if pts[1].y > pts[0].y then NegInf else NaN
    ensures !Drawable(pts, x) && x == pts[0].x ==> r == NaN
    ensures !Drawable(pts, x) && x > pts[0].x ==>
      var rise := pts[|pts| - 1].y - pts[|pts| - 2].y;
      r == if x == pts[|pts| - 1].x || rise == 0.0 then NaN else if rise > 0.0 then PosInf else NegInf
  {
    if !Drawable(pts, x) {
      DivergesAtEnd(pts, x);
    }
    if |pts| == 0 {
      return Number(0.0);
    }
    if |pts| == 1 {
      return Number(pts[0].y);
    }
    hide Segment, Line, Ordered, Rise;
    var n := |pts|;
    if x <= pts[0].x {
      LineDefined(pts[0], pts[1], x);
      return Line(pts[0], pts[1], x);
    }
    if x >= pts[n - 1].x {
      LineDefined(pts[n - 2], pts[n - 1], x);
      return Line(pts[n - 2], pts[n - 1], x);
    }
    for i := 0 to n - 1
      invariant pts[i].x < x
      invariant Scan(pts, x, 0) == Scan(pts, x, i)
    {
      if x >= pts[i].x && x <= pts[i + 1].x {
        LineDefined(pts[i], pts[i + 1], x);
        return Line(pts[i], pts[i + 1], x);
      }
    }
    assert false;
  }

  lemma LineDefined(p0: Point, p1: Point, x: real)
    ensures Line(p0, p1, x) == if p0.x == p1.x then Diverges(Rise(p0, p1, x)) else Number(Segment(p0, p1, x))
  {
    if p0.x != p1.x {
      LineIsSegment(p0, p1, x);
    }
  }

  /** A load measured twice at the low end: left of it the browser computes minus infinity and draws zero,
      where the server's curve is flat at the first value. */
  lemma VerticalEnd()
    ensures
      var pts := [Point(5.0, 1.0), Point(5.0, 3.0), Point(9.0, 4.0)];
      && Ordered(X, pts) && !Drawable(pts, 0.0)
      && Diverges(EndRise(pts, 0.0)) == NegInf && MaxZero(NegInf) == Number(0.0)
      && Curve(pts, 0.0) == 1.0
  {
    var pts := [Point(5.0, 1.0), Point(5.0, 3.0), Point(9.0, 4.0)];
    assert EndRise(pts, 0.0) == (3.0 - 1.0) * (0.0 - 5.0);
  }

  /** On strictly increasing loads the two implementations agree at every real x. */
  method InterpAgrees(pts: seq<Point>, x: real) returns (r: JsNumber)
    requires Increasing(pts)
    ensures r == Number(Curve(pts, x))
  {
    IncreasingOrdered(pts);
    r := Interp(pts, x);
  }

  datatype Sample = Sample(x: real, y: JsNumber)

  function SampleAt(lo: real, hi: real, i: nat, n: nat): real
    requires n >= 2
  {
    lo + (hi - lo) * i as real / (n - 1) as real
  }

  function PadLow(xMin: real, xMax: real): real { Max(0.0, xMin - (xMax - xMin) * 0.08) }

  function PadHigh(xMin: real, xMax: real): real { xMax + (xMax - xMin) * 0.08 }

  /** What is drawn at x: the server's clamped curve where the extended end segment is not vertical, and
      otherwise zero, infinity or nothing, by the rise of that segment. */
  ghost function Drawn(sorted: seq<Point>, x: real): JsNumber {
    if Drawable(sorted, x) then Number(Max(0.0, Curve(sorted, x))) else MaxZero(Diverges(EndRise(sorted, x)))
  }

  /** What is drawn, case by case. */
  lemma DrawnCases(pts: seq<Point>, x: real)
    requires Ordered(X, pts)
    ensures Drawable(pts, x) ==> Drawn(pts, x) == Number(if Curve(pts, x) < 0.0 then 0.0 else Curve(pts, x))
    ensures !Drawable(pts, x) && x < pts[0].x ==>
      Drawn(pts, x) == if pts[1].y < pts[0].y then PosInf else if pts[1].y > pts[0].y then Number(0.0) else NaN
    ensures !Drawable(pts, x) && x == pts[0].x ==> Drawn(pts, x) == NaN
    ensures !Drawable(pts, x) && x > pts[0].x ==>
      var rise := pts[|pts| - 1].y - pts[|pts| - 2].y;
      Drawn(pts, x)
        == if x == pts[|pts| - 1].x || rise == 0.0 then NaN else if rise > 0.0 then PosInf else Number(0.0)
  {
    hide Curve, Drawable, EndRise, Diverges;
    if !Drawable(pts, x) {
      DivergesAtEnd(pts, x);
    }
  }

  /** The first place is the padded low end, the last the padded high end, and all steps are equal. */
  ghost predicate Spaced(line: seq<Sample>, xMin: real, xMax: real) {
    var low, n := xMin - 0.08 * (xMax - xMin), |line|;
    n >= 2 ==>
      && line[0].x == (if low < 0.0 then 0.0 else low)
      && line[n - 1].x == xMax + 0.08 * (xMax - xMin)
      && forall i :: 0 <= i < n - 1 ==> (line[i + 1].x - line[i].x) * (n - 1) as real == line[n - 1].x - line[0].x
  }

  lemma EvenlySpaced(lo: real, hi: real, i: nat, n: nat)
    requires n >= 2
    ensures SampleAt(lo, hi, 0, n) == lo && SampleAt(lo, hi, n - 1, n) == hi
    ensures (SampleAt(lo, hi, i + 1, n) - SampleAt(lo, hi, i, n)) * (n - 1) as real == hi - lo
  {
    var d, w := (n - 1) as real, hi - lo;
    QuotientUnique(w * d, d, w);
    QuotientUnique(w * 0.0, d, 0.0);
    var q, q' := w * i as real / d, w * (i + 1) as real / d;
    assert q * d == w * i as real && q' * d == w * (i + 1) as real;
    assert w * (i + 1) as real == w * i as real + w;
    assert (q' - q) * d == q' * d - q * d;
  }

  lemma SamplesSpaced(line: seq<Sample>, xMin: real, xMax: real)
    requires |line| >= 2
    requires forall i :: 0 <= i < |line| ==>
      line[i].x == SampleAt(PadLow(xMin, xMax), PadHigh(xMin, xMax), i, |line|)
    ensures Spaced(line, xMin, xMax)
  {
    hide SampleAt;
    var lo, hi, n := PadLow(xMin, xMax), PadHigh(xMin, xMax), |line|;
    EvenlySpaced(lo, hi, 0, n);
    forall i | 0 <= i < n - 1 ensures (line[i + 1].x - line[i].x) * (n - 1) as real == hi - lo {
      EvenlySpaced(lo, hi, i, n);
    }
  }

  /** The sampled line: every sample at its evenly spaced place. JavaScript's sort is stable. */
  method ModelLine(pts: seq<Point>, xMin: real, xMax: real, n: nat := 100) returns (line: seq<Sample>)
    requires n >= 2
    ensures |line| == n
    ensures Spaced(line, xMin, xMax)
    ensures forall i :: 0 <= i < n ==> line[i].y == Drawn(Sorted(X, pts), line[i].x)
  {
    hide Curve, Drawable, Ordered, EndRise, Diverges;
    var sorted := Sorted(X, pts);
    SortedSorts(X, pts);
    var lo, hi := PadLow(xMin, xMax), PadHigh(xMin, xMax);
    line := [];
    for i := 0 to n
      invariant |line| == i
      invariant forall j :: 0 <= j < i ==> line[j].x == SampleAt(lo, hi, j, n)
      invariant forall j :: 0 <= j < i ==> line[j].y == Drawn(sorted, line[j].x)
    {
      var x := SampleAt(lo, hi, i, n);
      var y := Interp(sorted, x);
      line := line + [Sample(x, MaxZero(y))];
    }
    SamplesSpaced(line, xMin, xMax);
  }

  // ---------------------------------------------------------------------------------------
  // The chart and the estimate endpoint

  /** The chart keeps short runs with a retention of seven days: calibration runs are left out. */
  predicate IsBaseline(r: Row) {
    r.retentionDays == 7.0 && r.durationSeconds <= 14400.0
  }

  function BaselineOnly(): Row -> Option<Row> {
    (r: Row) => if IsBaseline(r) then Some(r) else None
  }

  function Baseline(rows: seq<Row>): seq<Row> {
    FilterMap(BaselineOnly(), rows)
  }

  /** Bytes are drawn in GiB, cores as they are. */
  function ChartPoint(key: ResourceKey): Row -> Option<Point> {
    (r: Row) =>
      if KeyVal(r, key) <= 0.0 then None
      else Some(Point(r.loadValue, if key == MemPeakBytes then KeyVal(r, key) / GIB else KeyVal(r, key)))
  }

  function ChartPoints(rows: seq<Row>, key: ResourceKey): seq<Point> {
    FilterMap(ChartPoint(key), rows)
  }

  function Unit(key: ResourceKey): real { if key == MemPeakBytes then GIB else 1.0 }

  lemma ChartPointScales(m: MathLib, r: Row, key: ResourceKey, alpha: real)
    requires m.Lawful() && key != DiskBytes && r.retentionDays == 7.0
    ensures ScaledPoint(m, key, 7.0, alpha)(r) == MapOption(ScaleY(Unit(key)), ChartPoint(key)(r))
  {
    if KeyVal(r, key) > 0.0 {
      OwnPoint(m, r, key, alpha);
    }
  }

  /** The clamped curve the chart shows for the matching rows of an instrument. */
  function ChartCurve(rows: seq<Row>, key: ResourceKey, x: real): real {
    Max(0.0, Curve(Sorted(X, ChartPoints(Baseline(rows), key)), x))
  }

  lemma BaselineMember(rows: seq<Row>, r: Row)
    ensures r in Baseline(rows) <==> r in rows && IsBaseline(r)
  {
    FilterMapMembers(BaselineOnly(), rows, r);
    if r in rows && IsBaseline(r) {
      assert BaselineOnly()(r) == Some(r);
    }
  }

  /** Rescaling baseline rows to seven days only changes the unit. */
  lemma BaselinePoints(m: MathLib, rows: seq<Row>, key: ResourceKey, alpha: real)
    requires m.Lawful() && key != DiskBytes
    ensures FilterMap(ScaledPoint(m, key, 7.0, alpha), Baseline(rows))
      == Map(ScaleY(Unit(key)), ChartPoints(Baseline(rows), key))
  {
    hide FilterMap, ScaledPoint, ChartPoint, ScaleY, MathLib.Lawful;
    var f, g, h, k := ScaledPoint(m, key, 7.0, alpha), ChartPoint(key), (r: Row) => r, ScaleY(Unit(key));
    forall r | r in Baseline(rows) ensures f(h(r)) == MapOption(k, g(r)) {
      BaselineMember(rows, r);
      ChartPointScales(m, r, key, alpha);
    }
    FilterMapTransform(f, g, h, k, Baseline(rows));
    assert Map(h, Baseline(rows)) == Baseline(rows);
  }

  /** The baseline holds the rows kept for seven days that lasted at most four hours, each as often as the
      table does, and no others. */
  lemma BaselineExact(rows: seq<Row>, r: Row)
    ensures multiset(Baseline(rows))[r]
      == if r.retentionDays == 7.0 && r.durationSeconds <= 14400.0 then multiset(rows)[r] else 0
  {
    FilterCount(BaselineOnly(), rows, r);
  }

  /** The points drawn are the positive measurements at their loads: cores as they are, bytes by the GiB. */
  lemma ChartPointsExact(rows: seq<Row>, p: Point)
    ensures p in ChartPoints(rows, CpuCores)
      <==> exists r :: r in rows && r.cpuCores > 0.0 && p.x == r.loadValue && p.y == r.cpuCores
    ensures p in ChartPoints(rows, MemPeakBytes)
      <==> exists r :: r in rows && r.memPeakBytes > 0.0 && p.x == r.loadValue && p.y * 1073741824.0 == r.memPeakBytes
  {
    hide FilterMap;
    FilterMapMembers(ChartPoint(CpuCores), rows, p);
    FilterMapMembers(ChartPoint(MemPeakBytes), rows, p);
    forall r ensures ChartPoint(CpuCores)(r) == Some(p)
      <==> r.cpuCores > 0.0 && p.x == r.loadValue && p.y == r.cpuCores {}
    forall r ensures ChartPoint(MemPeakBytes)(r) == Some(p)
      <==> r.memPeakBytes > 0.0 && p.x == r.loadValue && p.y * 1073741824.0 == r.memPeakBytes {}
  }

  lemma BaselinePositive(rows: seq<Row>, key: ResourceKey)
    requires key != DiskBytes
    ensures PositivePeriods(Baseline(rows), key)
  {
    hide FilterMap;
    forall r | r in Baseline(rows) ensures r.retentionDays == 7.0 {
      BaselineMember(rows, r);
    }
  }

  /** At every load the curve shown for CPU and for memory is, in the chart's unit, a possible answer of the
      server for seven days from the baseline rows alone. It is the only one at every load exactly when
      baseline rows with equal loads agree. */
  lemma ChartShowsEstimate(m: MathLib, rows: seq<Row>, key: ResourceKey)
    requires m.Lawful() && key != DiskBytes
    ensures forall x :: Possible(m, Baseline(rows), x, 7.0, key, Unit(key) * ChartCurve(rows, key, x))
    ensures (forall x, u :: Possible(m, Baseline(rows), x, 7.0, key, u) ==> u == Unit(key) * ChartCurve(rows, key, x))
      <==> LoadsAgree(m, Baseline(rows), key)
  {
    hide Possible, LoadsAgree, Estimate, ChartCurve, MathLib.Lawful;
    BaselinePositive(rows, key);
    EstimateDeterminedIff(m, Baseline(rows), key, 7.0);
    forall x ensures Possible(m, Baseline(rows), x, 7.0, key, Unit(key) * ChartCurve(rows, key, x)) {
      ChartShowsAt(m, rows, key, x);
      EstimatePossible(m, Baseline(rows), x, 7.0, key);
    }
  }

  lemma ChartShowsAt(m: MathLib, rows: seq<Row>, key: ResourceKey, x: real)
    requires m.Lawful() && key != DiskBytes
    ensures Estimate(m, Baseline(rows), x, 7.0, key) == Unit(key) * ChartCurve(rows, key, x)
  {
    hide Alpha, Curve, Sorted, FilterMap, ScaledPoint, ChartPoint, ScaleY, MathLib.Lawful;
    BaselinePoints(m, rows, key, Alpha(m, Baseline(rows), key));
    ClampedCurveScale(Unit(key), ChartPoints(Baseline(rows), key), x);
  }

  /** The samples drawn for an instrument: none without a point, and otherwise a finite number wherever the
      extended end segment is not vertical, which there is a possible answer from the baseline rows, and the
      only one when baseline rows with equal loads agree. */
  method DrawInstrument(ghost m: MathLib, rows: seq<Row>, key: ResourceKey, xMin: real, xMax: real)
    returns (line: seq<Sample>)
    requires m.Lawful() && key != DiskBytes
    ensures |line| == if |ChartPoints(Baseline(rows), key)| == 0 then 0 else 100
    ensures Spaced(line, xMin, xMax)
    ensures forall i :: 0 <= i < |line| && Drawable(Sorted(X, ChartPoints(Baseline(rows), key)), line[i].x) ==>
      && line[i].y.Number?
      && Possible(m, Baseline(rows), line[i].x, 7.0, key, Unit(key) * line[i].y.value)
    ensures forall i, u ::
      && 0 <= i < |line| && Drawable(Sorted(X, ChartPoints(Baseline(rows), key)), line[i].x)
      && LoadsAgree(m, Baseline(rows), key) && Possible(m, Baseline(rows), line[i].x, 7.0, key, u) ==>
      line[i].y.Number? && u == Unit(key) * line[i].y.value
  {
    hide Curve, Sorted, FilterMap, ChartPoint, Possible, Drawable, EndRise, LoadsAgree, MathLib.Lawful;
    var pts := ChartPoints(Baseline(rows), key);
    if |pts| == 0 {
      return [];
    }
    line := ModelLine(pts, xMin, xMax);
    ChartShowsEstimate(m, rows, key);
    assert forall i :: 0 <= i < |line| && Drawable(Sorted(X, pts), line[i].x) ==>
      line[i].y == Number(ChartCurve(rows, key, line[i].x));
  }
}
