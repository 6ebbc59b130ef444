/** The load curve: `segment` and `interpolate` of obs-advisor/server/capacitymodel/model.go. */
module Interpolation {
  import opened Collections
  import opened Sorting
  import opened LeastSquares

  function Segment(p0: Point, p1: Point, x: real): real {
    var dx := p1.x - p0.x;
    if dx == 0.0 then p0.y else p0.y + ((x - p0.x) / dx) * (p1.y - p0.y)
  }

  /** The index at which the scan for x stops when it starts at i. */
  function Scan(p: seq<Point>, x: real, i: nat): (r: nat)
    requires i < |p|
    ensures i <= r < |p|
    ensures r + 1 < |p| ==> x <= p[r + 1].x
    ensures forall j :: i < j <= r ==> p[j].x < x
    decreases |p| - i
  {
    if i < |p| - 1 && p[i + 1].x < x then Scan(p, x, i + 1) else i
  }

  /** The value at x of the curve through points already put in order. */
  function Curve(p: seq<Point>, x: real): real {
    if |p| == 0 then 0.0
    else if |p| == 1 then p[0].y
    else if x <= p[0].x then Segment(p[0], p[1], x)
    else if x >= p[|p| - 1].x then Segment(p[|p| - 2], p[|p| - 1], x)
    else
      var i := Scan(p, x, 0);
      Segment(p[i], p[i + 1], x)
  }

  lemma EmptySorting(s: seq<Point>)
    requires |s| == 0
    ensures IsSorting(X, s, s) && Sorted(X, s) == s
  {
  }

  /** Sorts the caller's points in place, then evaluates the curve through them. */
  method Interpolate(points: array<Point>, x: real) returns (r: real)
    modifies points
    ensures IsSorting(X, points[..], old(points[..]))
    ensures r == Curve(points[..], x)
    ensures Consistent(X, old(points[..])) ==> r == Curve(Sorted(X, old(points[..])), x)
  {
    hide Segment, Ordered, Sorted, Permutation, Consistent;
    if points.Length == 0 {
      EmptySorting(points[..]);
      return 0.0;
    }
    SortInPlace(points, X);
    ghost var p := points[..];
    var n := points.Length;
    if n == 1 {
      return points[0].y;
    }
    if x <= points[0].x {
      return Segment(points[0], points[1], x);
    }
    if x >= points[n - 1].x {
      return Segment(points[n - 2], points[n - 1], x);
    }
    var i := 0;
    while i < n - 1 && points[i + 1].x < x
      invariant 0 <= i < n
      invariant points[..] == p && Scan(p, x, 0) == Scan(p, x, i)
    {
      i := i + 1;
    }
    r := Segment(points[i], points[i + 1], x);
  }

  // ---------------------------------------------------------------------------------------
  // Bracketing and measured loads, with duplicate loads allowed

  ghost predicate Lies(a: real, v: real, b: real) {
    a <= v <= b || b <= v <= a
  }

  lemma SegmentBetween(p0: Point, p1: Point, x: real)
    requires p0.x <= x <= p1.x && p0.x < p1.x
    ensures Lies(p0.y, Segment(p0, p1, x), p1.y)
    ensures x == p0.x ==> Segment(p0, p1, x) == p0.y
    ensures x == p1.x ==> Segment(p0, p1, x) == p1.y
  {
    var dx, dy := p1.x - p0.x, p1.y - p0.y;
    var t := (x - p0.x) / dx;
    assert t * dx == x - p0.x;
    assert 0.0 <= t <= 1.0 by {
      SignOfFactor(t, dx);
      assert (1.0 - t) * dx == p1.x - x;
      SignOfFactor(1.0 - t, dx);
    }
    if dy >= 0.0 {
      assert t * dy >= 0.0 && (1.0 - t) * dy >= 0.0;
    } else {
      assert t * -dy >= 0.0 && (1.0 - t) * -dy >= 0.0;
    }
    if x == p1.x {
      assert t == 1.0;
    }
  }

  /** A segment evaluated at one of its ends. */
  lemma KnotValue(p0: Point, p1: Point, x: real)
    requires p0.x <= p1.x && (x == p0.x || x == p1.x)
    ensures Segment(p0, p1, x) == if x == p1.x && p0.x != p1.x then p1.y else p0.y
  {
    if p0.x < p1.x {
      SegmentBetween(p0, p1, x);
    }
  }

  /** Strictly inside the measured range the scan finds the two neighbouring measurements;
      they have different loads, and the curve passes between their values. */
  lemma Bracketing(p: seq<Point>, x: real)
    requires Ordered(X, p) && |p| >= 2 && p[0].x < x < p[|p| - 1].x
    ensures
      var i := Scan(p, x, 0);
      && i + 1 < |p| && p[i].x < x <= p[i + 1].x
      && Lies(p[i].y, Curve(p, x), p[i + 1].y)
  {
    var i := Scan(p, x, 0);
    SegmentBetween(p[i], p[i + 1], x);
  }

  /** The measurement whose value the curve takes at a measured load x. */
  ghost function KnotIndex(p: seq<Point>, x: real): (j: nat)
    requires |p| > 0
    ensures j < |p|
  {
    var n := |p|;
    if n == 1 || x <= p[0].x then 0
    else if x >= p[n - 1].x then (if p[n - 2].x == p[n - 1].x then n - 2 else n - 1)
    else Scan(p, x, 0) + 1
  }

  /** At every measured load the curve takes one of the values measured there. */
  lemma CurveAtMeasuredLoad(p: seq<Point>, k: nat)
    requires Ordered(X, p) && k < |p|
    ensures
      var j := KnotIndex(p, p[k].x);
      p[j].x == p[k].x && Curve(p, p[k].x) == p[j].y
  {
    hide Segment;
    var n, x := |p|, p[k].x;
    assert X(p[0]) <= X(p[k]) <= X(p[n - 1]);
    if n == 1 {
    } else if x <= p[0].x {
      KnotValue(p[0], p[1], x);
    } else if x >= p[n - 1].x {
      KnotValue(p[n - 2], p[n - 1], x);
    } else {
      var i := Scan(p, x, 0);
      Bracketing(p, x);
      assert X(p[i + 1]) <= X(p[k]);
      KnotValue(p[i], p[i + 1], x);
    }
  }

  ghost predicate Increasing(p: seq<Point>) {
    forall i, j :: 0 <= i < j < |p| ==> p[i].x < p[j].x
  }

  lemma OrderedDistinct(p: seq<Point>)
    requires Ordered(X, p) && DistinctX(p)
    ensures Increasing(p)
  {
    forall i, j | 0 <= i < j < |p| ensures p[i].x < p[j].x {
      assert X(p[i]) <= X(p[j]);
    }
  }

  lemma IncreasingOrdered(p: seq<Point>)
    requires Increasing(p)
    ensures Ordered(X, p) && Consistent(X, p) && DistinctX(p)
  {
    forall i, j | 0 <= i < |p| && 0 <= j < |p| && X(p[i]) == X(p[j]) ensures p[i] == p[j] {
      assert i == j;
    }
  }

  /** When no load carries two values, the curve runs through all points. */
  lemma CurveAtKnot(p: seq<Point>, k: nat)
    requires Ordered(X, p) && Consistent(X, p) && k < |p|
    ensures Curve(p, p[k].x) == p[k].y
  {
    hide Curve;
    CurveAtMeasuredLoad(p, k);
    assert X(p[KnotIndex(p, p[k].x)]) == X(p[k]);
  }

  lemma CurveThroughKnots(p: seq<Point>, k: nat)
    requires Increasing(p) && k < |p|
    ensures Curve(p, p[k].x) == p[k].y
  {
    hide Curve;
    IncreasingOrdered(p);
    CurveAtKnot(p, k);
  }

  lemma OrderedAt(p: seq<Point>, i: nat, j: nat)
    requires Ordered(X, p) && i <= j < |p|
    ensures p[i].x <= p[j].x
  {
    assert i < j ==> X(p[i]) <= X(p[j]);
  }

  lemma ScanStops(p: seq<Point>, i: nat, x: real)
    requires Ordered(X, p) && i + 1 < |p| && p[i].x < x < p[i + 1].x
    ensures Scan(p, x, 0) == i
  {
    hide Ordered;
    var r := Scan(p, x, 0);
    OrderedAt(p, 0, i);
    if r < i {
      OrderedAt(p, r + 1, i);
    }
  }

  /** Between neighbours with different loads the curve is their segment. */
  lemma CurveBetween(p: seq<Point>, i: nat, x: real)
    requires Ordered(X, p) && Consistent(X, p) && i + 1 < |p| && p[i].x <= x <= p[i + 1].x && p[i].x < p[i + 1].x
    ensures Curve(p, x) == Segment(p[i], p[i + 1], x)
  {
    hide Segment;
    if x == p[i].x {
      CurveAtKnot(p, i);
      KnotValue(p[i], p[i + 1], x);
    } else if x == p[i + 1].x {
      CurveAtKnot(p, i + 1);
      KnotValue(p[i], p[i + 1], x);
    } else {
      assert X(p[0]) <= X(p[i]) && X(p[i + 1]) <= X(p[|p| - 1]);
      ScanStops(p, i, x);
    }
  }

  /** Outside the measured range the curve extends its end segments. */
  lemma CurveEnds(p: seq<Point>, x: real)
    requires Ordered(X, p) && Consistent(X, p) && |p| >= 2
    ensures x <= p[0].x ==> Curve(p, x) == Segment(p[0], p[1], x)
    ensures x >= p[|p| - 1].x ==> Curve(p, x) == Segment(p[|p| - 2], p[|p| - 1], x)
  {
    var n := |p|;
    hide Segment;
    if x <= p[0].x && x >= p[n - 1].x {
      assert X(p[0]) <= X(p[1]) <= X(p[n - 1]) && X(p[0]) <= X(p[n - 2]) <= X(p[n - 1]);
      FlatSegment(p[0], p[1], x);
      FlatSegment(p[n - 2], p[n - 1], x);
    }
  }

  // ---------------------------------------------------------------------------------------
  // The unstable sort: when the result is determined

  /** The outcome does not depend on how the sort orders equal loads. */
  ghost predicate OrderIndependent(points: seq<Point>) {
    forall s, t, x :: IsSorting(X, s, points) && IsSorting(X, t, points) ==> Curve(s, x) == Curve(t, x)
  }

  lemma {:induction false} ScanSameLoads(p: seq<Point>, q: seq<Point>, x: real, i: nat)
    requires |p| == |q| && i < |p|
    requires forall j :: 0 <= j < |p| ==> p[j].x == q[j].x
    ensures Scan(p, x, i) == Scan(q, x, i)
    decreases |p| - i
  {
    if i < |p| - 1 && p[i + 1].x < x {
      ScanSameLoads(p, q, x, i + 1);
    }
  }

  lemma KnotSameLoads(p: seq<Point>, q: seq<Point>, x: real)
    requires |p| == |q| && |p| > 0
    requires forall j :: 0 <= j < |p| ==> p[j].x == q[j].x
    ensures KnotIndex(p, x) == KnotIndex(q, x)
  {
    ScanSameLoads(p, q, x, 0);
  }

  /** Exchanging two points with the same load gives another possible outcome of the sort. */
  lemma ExchangeEqualLoads(points: seq<Point>, s: seq<Point>, i: nat, j: nat) returns (t: seq<Point>)
    requires IsSorting(X, s, points) && i < |s| && j < |s| && s[i].x == s[j].x
    ensures IsSorting(X, t, points) && |t| == |s| && t[i] == s[j]
    ensures forall k :: 0 <= k < |s| ==> t[k].x == s[k].x
  {
    t := s[i := s[j]][j := s[i]];
    forall k, l | 0 <= k < l < |t| ensures X(t[k]) <= X(t[l]) {
      assert X(s[k]) <= X(s[l]);
    }
  }

  /** The interpolant is a function of the multiset of points exactly when no load was measured
      with two different values. */
  lemma OrderIndependentIff(points: seq<Point>)
    ensures OrderIndependent(points) <==> Consistent(X, points)
  {
    if Consistent(X, points) {
      forall s, t, x | IsSorting(X, s, points) && IsSorting(X, t, points) ensures Curve(s, x) == Curve(t, x) {
        SortingUnique(X, s, points);
        SortingUnique(X, t, points);
      }
    } else {
      var a, b :| 0 <= a < |points| && 0 <= b < |points| && X(points[a]) == X(points[b]) && points[a] != points[b];
      var s, t, i, j, x := DifferingOutcomes(points, points[a], points[b]);
    }
  }

  /** Two points with one load and different values give two outcomes of the sort whose curves take
      different measured values at some load. */
  lemma DifferingOutcomes(points: seq<Point>, a: Point, b: Point)
    returns (s: seq<Point>, t: seq<Point>, i: nat, j: nat, x: real)
    requires a in points && b in points && a.x == b.x && a.y != b.y
    ensures IsSorting(X, s, points) && IsSorting(X, t, points)
    ensures i < |points| && j < |points| && points[i].y != points[j].y && x == a.x
    ensures Curve(s, x) == points[i].y && Curve(t, x) == points[j].y
  {
    hide Curve, KnotIndex, Ordered, Sorted;
    s := Sorted(X, points);
    SortedSorts(X, points);
    PermutationLength(s, points);
    var ia :| 0 <= ia < |s| && s[ia] == a;
    var ib :| 0 <= ib < |s| && s[ib] == b;
    x := a.x;
    var k := KnotIndex(s, x);
    CurveAtMeasuredLoad(s, ia);
    var other := if s[k].y == a.y then ib else ia;
    t := ExchangeEqualLoads(points, s, k, other);
    KnotSameLoads(s, t, x);
    CurveAtMeasuredLoad(t, ia);
    assert s[k] in points && s[other] in points;
    i :| i < |points| && points[i] == s[k];
    j :| j < |points| && points[j] == s[other];
  }

  // ---------------------------------------------------------------------------------------
  // Slopes: monotonicity and the Lipschitz bound

  function SlopeAt(p: seq<Point>, i: nat): real
    requires Increasing(p) && i + 1 < |p|
  {
    (p[i + 1].y - p[i].y) / (p[i + 1].x - p[i].x)
  }

  ghost predicate SlopesWithin(p: seq<Point>, lo: real, hi: real)
    requires Increasing(p)
  {
    forall i :: 0 <= i < |p| - 1 ==> lo <= SlopeAt(p, i) <= hi
  }

  lemma SegmentDifference(p0: Point, p1: Point, x: real, y: real)
    requires p0.x < p1.x
    ensures Segment(p0, p1, y) - Segment(p0, p1, x) == (p1.y - p0.y) / (p1.x - p0.x) * (y - x)
  {
    var dx, dy := p1.x - p0.x, p1.y - p0.y;
    var u, v, q := (x - p0.x) / dx, (y - p0.x) / dx, dy / dx;
    assert q * dx == dy && u * dx == x - p0.x && v * dx == y - p0.x;
    assert u * dy == q * (u * dx) && v * dy == q * (v * dx);
  }

  lemma ScanTail(p: seq<Point>, x: real, i: nat)
    requires i + 1 < |p|
    ensures Scan(p, x, i + 1) == Scan(p[1..], x, i) + 1
    decreases |p| - i
  {
  }

  lemma CurveHead(p: seq<Point>, x: real)
    requires Ordered(X, p) && Consistent(X, p) && |p| >= 2 && (|p| == 2 || x <= p[1].x)
    ensures Curve(p, x) == Segment(p[0], p[1], x)
  {
    hide Segment, Curve;
    if p[0].x < x <= p[1].x {
      CurveBetween(p, 0, x);
    } else {
      CurveEnds(p, x);
      assert X(p[0]) <= X(p[1]);
      if p[1].x < x {
        assert |p| == 2;
      }
    }
  }

  lemma CurveTail(p: seq<Point>, x: real)
    requires Ordered(X, p) && Consistent(X, p) && |p| >= 3 && p[1].x <= x
    ensures Ordered(X, p[1..]) && Consistent(X, p[1..])
    ensures Curve(p, x) == Curve(p[1..], x)
  {
    hide Segment;
    assert X(p[0]) <= X(p[1]);
    if x == p[1].x {
      CurveAtKnot(p, 1);
      CurveAtKnot(p[1..], 0);
    } else {
      ScanTail(p, x, 0);
    }
  }

  /** Bounds on the segment slopes bound the growth of the whole curve, tails included. */
  lemma {:induction false} SlopeSandwich(p: seq<Point>, lo: real, hi: real, x: real, y: real)
    requires Increasing(p) && |p| >= 2 && SlopesWithin(p, lo, hi) && x <= y
    ensures Between(lo, Curve(p, y) - Curve(p, x), hi, y - x)
    decreases |p|
  {
    hide Curve, Between;
    IncreasingOrdered(p);
    hide Ordered, Consistent;
    if |p| == 2 || y <= p[1].x {
      HeadSandwich(p, lo, hi, x, y);
    } else {
      var k := p[1].x;
      forall i | 0 <= i < |p[1..]| - 1 ensures lo <= SlopeAt(p[1..], i) <= hi {
        assert SlopeAt(p[1..], i) == SlopeAt(p, i + 1);
      }
      CurveTail(p, y);
      if k <= x {
        CurveTail(p, x);
        SlopeSandwich(p[1..], lo, hi, x, y);
      } else {
        CurveTail(p, k);
        HeadSandwich(p, lo, hi, x, k);
        SlopeSandwich(p[1..], lo, hi, k, y);
        BetweenAdd(lo, Curve(p, k) - Curve(p, x), Curve(p, y) - Curve(p, k), hi, k - x, y - k);
      }
    }
  }

  lemma HeadSandwich(p: seq<Point>, lo: real, hi: real, x: real, y: real)
    requires Increasing(p) && |p| >= 2 && SlopesWithin(p, lo, hi)
    requires x <= y && (|p| == 2 || y <= p[1].x)
    ensures Between(lo, Curve(p, y) - Curve(p, x), hi, y - x)
  {
    hide Curve, Segment, Ordered, Consistent, Between;
    IncreasingOrdered(p);
    CurveHead(p, x);
    CurveHead(p, y);
    SegmentDifference(p[0], p[1], x, y);
    assert lo <= SlopeAt(p, 0) <= hi;
    hide SlopesWithin, Increasing;
    MultiplyBounds(lo, SlopeAt(p, 0), hi, y - x, Curve(p, y) - Curve(p, x));
  }

  lemma MultiplyBounds(lo: real, q: real, hi: real, d: real, z: real)
    requires lo <= q <= hi && d >= 0.0 && z == q * d
    ensures Between(lo, z, hi, d)
  {
    assert (q - lo) * d >= 0.0 && (hi - q) * d >= 0.0;
  }

  function Abs(a: real): real { if a < 0.0 then -a else a }

  function Max(a: real, b: real): real { if a < b then b else a }

  function Min(a: real, b: real): real { if a < b then a else b }

  /** The largest absolute slope among the first n segments. */
  function MaxAbsSlope(p: seq<Point>, n: nat): (m: real)
    requires Increasing(p) && n < |p|
    ensures m >= 0.0
    ensures forall i :: 0 <= i < n ==> Abs(SlopeAt(p, i)) <= m
    ensures m == 0.0 || exists i :: 0 <= i < n && Abs(SlopeAt(p, i)) == m
  {
    if n == 0 then 0.0 else Max(MaxAbsSlope(p, n - 1), Abs(SlopeAt(p, n - 1)))
  }

  ghost predicate Lipschitz(p: seq<Point>, k: real) {
    forall x, y :: Abs(Curve(p, x) - Curve(p, y)) <= k * Abs(x - y)
  }

  /** The largest absolute segment slope is the least Lipschitz constant of the curve over all reals. */
  lemma LipschitzIff(p: seq<Point>, k: real)
    requires Increasing(p) && |p| >= 2
    ensures Lipschitz(p, k) <==> MaxAbsSlope(p, |p| - 1) <= k
  {
    hide Curve, SlopeAt, MaxAbsSlope;
    if MaxAbsSlope(p, |p| - 1) <= k {
      forall x, y ensures Abs(Curve(p, x) - Curve(p, y)) <= k * Abs(x - y) {
        SteepnessBound(p, k, x, y);
      }
    } else {
      TooSteep(p, k);
    }
  }

  lemma TooSteep(p: seq<Point>, k: real)
    requires Increasing(p) && |p| >= 2 && MaxAbsSlope(p, |p| - 1) > k
    ensures !Lipschitz(p, k)
  {
    hide Curve, SlopeAt, MaxAbsSlope;
    if Lipschitz(p, k) {
      LipschitzNonnegative(p, k);
      var i :| 0 <= i < |p| - 1 && Abs(SlopeAt(p, i)) > k;
      SteepSegment(p, k, i);
      assert false;
    }
  }

  lemma LipschitzNonnegative(p: seq<Point>, k: real)
    requires Increasing(p) && |p| >= 2 && Lipschitz(p, k)
    ensures k >= 0.0
  {
    hide Curve;
    var x0, x1 := p[0].x, p[1].x;
    assert Abs(Curve(p, x0) - Curve(p, x1)) <= k * Abs(x0 - x1);
    NonnegativeConstant(k, Abs(x0 - x1), Abs(Curve(p, x0) - Curve(p, x1)));
  }

  lemma NonnegativeConstant(k: real, d: real, v: real)
    requires d > 0.0 && 0.0 <= v <= k * d
    ensures k >= 0.0
  {
  }

  lemma SlopesBounded(p: seq<Point>)
    requires Increasing(p) && |p| >= 2
    ensures SlopesWithin(p, -MaxAbsSlope(p, |p| - 1), MaxAbsSlope(p, |p| - 1))
  {
    hide SlopeAt;
    var m := MaxAbsSlope(p, |p| - 1);
    forall i | 0 <= i < |p| - 1 ensures -m <= SlopeAt(p, i) <= m {
      assert Abs(SlopeAt(p, i)) <= m;
    }
  }

  lemma {:induction false} SteepnessBound(p: seq<Point>, k: real, x: real, y: real)
    requires Increasing(p) && |p| >= 2 && MaxAbsSlope(p, |p| - 1) <= k
    ensures Abs(Curve(p, x) - Curve(p, y)) <= k * Abs(x - y)
  {
    hide Curve, MaxAbsSlope, Increasing, SlopesWithin;
    var m := MaxAbsSlope(p, |p| - 1);
    SlopesBounded(p);
    if x <= y {
      SlopeSandwich(p, -m, m, x, y);
      AbsWithin(m, k, y - x, Curve(p, y) - Curve(p, x));
    } else {
      SlopeSandwich(p, -m, m, y, x);
      AbsWithin(m, k, x - y, Curve(p, x) - Curve(p, y));
    }
  }

  lemma AbsWithin(m: real, k: real, d: real, z: real)
    requires Between(-m, z, m, d) && m <= k && d >= 0.0
    ensures Abs(z) <= k * d
  {
    assert (k - m) * d >= 0.0;
  }

  lemma SteepSegment(p: seq<Point>, k: real, i: nat)
    requires Increasing(p) && i + 1 < |p| && Abs(SlopeAt(p, i)) > k
    ensures Abs(Curve(p, p[i + 1].x) - Curve(p, p[i].x)) > k * Abs(p[i + 1].x - p[i].x)
  {
    hide Curve;
    CurveThroughKnots(p, i);
    CurveThroughKnots(p, i + 1);
    SteepRise(p[i + 1].x - p[i].x, p[i + 1].y - p[i].y, SlopeAt(p, i), k);
  }

  lemma SteepRise(dx: real, dy: real, q: real, k: real)
    requires dx > 0.0 && q == dy / dx && Abs(q) > k
    ensures Abs(dy) > k * dx
  {
    assert q * dx == dy;
    assert (Abs(q) - k) * dx > 0.0;
    assert Abs(q) * dx == Abs(dy);
  }

  ghost predicate NondecreasingValues(p: seq<Point>) {
    forall i :: 0 <= i < |p| - 1 ==> p[i].y <= p[i + 1].y
  }

  ghost predicate NondecreasingCurve(p: seq<Point>) {
    forall x, y :: x <= y ==> Curve(p, x) <= Curve(p, y)
  }

  /** The curve never falls exactly when the measured values never fall. Loads may be measured repeatedly. */
  lemma MonotoneIff(p: seq<Point>)
    requires Ordered(X, p) && Consistent(X, p)
    ensures NondecreasingCurve(p) <==> NondecreasingValues(p)
  {
    hide Curve, Consistent;
    if NondecreasingValues(p) {
      forall x, y | x <= y ensures Curve(p, x) <= Curve(p, y) {
        MonotoneData(p, x, y);
      }
    }
    if NondecreasingCurve(p) {
      forall i | 0 <= i < |p| - 1 ensures p[i].y <= p[i + 1].y {
        CurveAtKnot(p, i);
        CurveAtKnot(p, i + 1);
        assert X(p[i]) <= X(p[i + 1]);
        assert Curve(p, p[i].x) <= Curve(p, p[i + 1].x);
      }
    }
  }

  lemma {:induction false} MonotoneData(p: seq<Point>, x: real, y: real)
    requires Ordered(X, p) && Consistent(X, p) && NondecreasingValues(p) && x <= y
    ensures Curve(p, x) <= Curve(p, y)
    decreases |p|
  {
    if |p| >= 2 {
      hide Curve, Segment, Consistent, Ordered;
      if |p| == 2 || y <= p[1].x {
        CurveHead(p, x);
        CurveHead(p, y);
        SegmentRises(p, x, y);
      } else {
        var k := p[1].x;
        CurveTail(p, y);
        if k <= x {
          CurveTail(p, x);
          MonotoneData(p[1..], x, y);
        } else {
          CurveTail(p, k);
          CurveHead(p, x);
          CurveHead(p, k);
          SegmentRises(p, x, k);
          MonotoneData(p[1..], k, y);
        }
      }
    }
  }

  lemma SegmentRises(p: seq<Point>, x: real, y: real)
    requires Ordered(X, p) && |p| >= 2 && p[0].y <= p[1].y && x <= y
    ensures Segment(p[0], p[1], x) <= Segment(p[0], p[1], y)
  {
    var p0, p1 := p[0], p[1];
    assert X(p0) <= X(p1);
    if p0.x < p1.x {
      SegmentDifference(p0, p1, x, y);
      NonnegativeQuotient(p1.y - p0.y, p1.x - p0.x);
      assert (p1.y - p0.y) / (p1.x - p0.x) * (y - x) >= 0.0;
    }
  }

  lemma NonnegativeQuotient(a: real, b: real)
    requires a >= 0.0 && b > 0.0
    ensures a / b >= 0.0
  {
  }

  /** Data on a line are extended by that line, everywhere. */
  lemma CurveOfLine(p: seq<Point>, a: real, b: real, x: real)
    requires Increasing(p) && |p| >= 2
    requires forall i :: 0 <= i < |p| ==> p[i].y == a + b * p[i].x
    ensures Curve(p, x) == a + b * x
  {
    hide Curve;
    forall i | 0 <= i < |p| - 1 ensures SlopeAt(p, i) == b {
      LineSlope(a, b, p[i + 1].x, p[i].x, p[i + 1].y, p[i].y);
    }
    CurveThroughKnots(p, 0);
    var x0 := p[0].x;
    hide SlopeAt, Increasing;
    if x0 <= x {
      SlopeSandwich(p, b, b, x0, x);
      LineExtension(a, b, x0, x, p[0].y, Curve(p, x));
    } else {
      SlopeSandwich(p, b, b, x, x0);
      LineExtension(a, b, x0, x, p[0].y, Curve(p, x));
    }
  }

  ghost predicate OnLine(p: seq<Point>, a: real, b: real) {
    forall i :: 0 <= i < |p| ==> p[i].y == a + b * p[i].x
  }

  /** The curve is a line exactly when the data lie on that line. */
  lemma CurveIsLineIff(p: seq<Point>, a: real, b: real)
    requires Increasing(p) && |p| >= 2
    ensures (forall x :: Curve(p, x) == a + b * x) <==> OnLine(p, a, b)
  {
    hide Curve, Increasing;
    if OnLine(p, a, b) {
      forall x ensures Curve(p, x) == a + b * x {
        CurveOfLine(p, a, b, x);
      }
    }
    if forall x :: Curve(p, x) == a + b * x {
      forall i | 0 <= i < |p| ensures p[i].y == a + b * p[i].x {
        CurveThroughKnots(p, i);
        assert Curve(p, p[i].x) == a + b * p[i].x;
      }
    }
  }

  lemma LineExtension(a: real, b: real, x0: real, x: real, y0: real, y: real)
    requires y0 == a + b * x0
    requires Between(b, y - y0, b, x - x0) || Between(b, y0 - y, b, x0 - x)
    ensures y == a + b * x
  {
    assert b * (x - x0) == b * x - b * x0 && b * (x0 - x) == b * x0 - b * x;
  }

  // ---------------------------------------------------------------------------------------
  // Points that lie on the curve

  /** A segment between two points of the line a + b * x follows that line. */
  lemma SegmentOnLine(a: real, b: real, p0: Point, p1: Point, x: real)
    requires p0.x != p1.x && p0.y == a + b * p0.x && p1.y == a + b * p1.x
    ensures Segment(p0, p1, x) == a + b * x
  {
    LineValue(a, b, p0.x, p0.y, p1.x, p1.y, x, Segment(p0, p1, x));
  }

  lemma LineValue(a: real, b: real, x0: real, y0: real, x1: real, y1: real, x: real, v: real)
    requires x0 != x1 && y0 == a + b * x0 && y1 == a + b * x1
    requires v == y0 + ((x - x0) / (x1 - x0)) * (y1 - y0)
    ensures v == a + b * x
  {
    var d := x1 - x0;
    var t := (x - x0) / d;
    assert t * d == x - x0;
    assert y1 - y0 == b * d;
    assert t * (b * d) == b * (t * d);
  }

  /** The slope and intercept of the line through two points. */
  lemma LineThrough(p0: Point, p1: Point) returns (a: real, b: real)
    requires p0.x != p1.x
    ensures p0.y == a + b * p0.x && p1.y == a + b * p1.x
  {
    b := (p1.y - p0.y) / (p1.x - p0.x);
    a := p0.y - b * p0.x;
    assert b * (p1.x - p0.x) == p1.y - p0.y;
  }

  lemma FlatSegment(p0: Point, p1: Point, x: real)
    requires p0.y == p1.y
    ensures Segment(p0, p1, x) == p0.y
  {
  }

  // ---------------------------------------------------------------------------------------
  // Scaling the values

  function ScaleY(c: real): Point -> Point {
    (p: Point) => Point(p.x, c * p.y)
  }

  lemma SegmentScale(c: real, p0: Point, p1: Point, x: real)
    ensures Segment(ScaleY(c)(p0), ScaleY(c)(p1), x) == c * Segment(p0, p1, x)
  {
    var dx := p1.x - p0.x;
    if dx != 0.0 {
      var t := (x - p0.x) / dx;
      assert c * (p0.y + t * (p1.y - p0.y)) == c * p0.y + t * (c * p1.y - c * p0.y);
    }
  }

  /** Multiplying every value by c multiplies the curve by c. */
  lemma CurveScale(c: real, p: seq<Point>, x: real)
    ensures Curve(Map(ScaleY(c), p), x) == c * Curve(p, x)
  {
    hide Segment, Scan;
    if |p| == 0 {
      assert c * 0.0 == 0.0;
    } else if |p| == 1 {
      assert Map(ScaleY(c), p)[0].y == c * p[0].y;
    } else {
      var q, n := Map(ScaleY(c), p), |p|;
      forall i | 0 <= i < n ensures q[i] == ScaleY(c)(p[i]) && q[i].x == p[i].x {}
      hide ScaleY;
      ScanSameLoads(p, q, x, 0);
      if x <= p[0].x {
        SegmentScale(c, p[0], p[1], x);
      } else if x >= p[n - 1].x {
        SegmentScale(c, p[n - 2], p[n - 1], x);
      } else {
        var i := Scan(p, x, 0);
        SegmentScale(c, p[i], p[i + 1], x);
      }
    }
  }

  lemma SortedScale(c: real, p: seq<Point>)
    ensures Sorted(X, Map(ScaleY(c), p)) == Map(ScaleY(c), Sorted(X, p))
  {
    SortedMap(X, X, ScaleY(c), p);
  }
}
