/** The least-squares line of obs-advisor/server/capacitymodel/model.go, lines 155-174. */
module LeastSquares {
  import opened Collections

  datatype Point = Point(x: real, y: real)

  const X: Point -> real := (p: Point) => p.x
  const Y: Point -> real := (p: Point) => p.y

  function Mean(f: Point -> real, pts: seq<Point>): real
    requires |pts| > 0
  {
    SumOf(f, pts) / |pts| as real
  }

  /** The product of the deviations of f from a and of g from b. */
  function Deviation(f: Point -> real, g: Point -> real, a: real, b: real): Point -> real {
    (p: Point) => (f(p) - a) * (g(p) - b)
  }

  function Covariation(f: Point -> real, g: Point -> real, pts: seq<Point>): real
    requires |pts| > 0
  {
    SumOf(Deviation(f, g, Mean(f, pts), Mean(g, pts)), pts)
  }

  function Cov(pts: seq<Point>): real
    requires |pts| > 0
  {
    Covariation(X, Y, pts)
  }

  function Var(pts: seq<Point>): real
    requires |pts| > 0
  {
    Covariation(X, X, pts)
  }

  function Slope(pts: seq<Point>): real
    requires |pts| > 0 && Var(pts) != 0.0
  {
    Cov(pts) / Var(pts)
  }

  function Intercept(pts: seq<Point>): real
    requires |pts| > 0 && Var(pts) != 0.0
  {
    Mean(Y, pts) - Slope(pts) * Mean(X, pts)
  }

  function Product(f: Point -> real, g: Point -> real): Point -> real {
    (p: Point) => f(p) * g(p)
  }

  lemma SumOfUnfold(f: Point -> real, s: seq<Point>)
    ensures SumOf(f, s) == if |s| == 0 then 0.0 else SumOf(f, s[..|s| - 1]) + f(s[|s| - 1])
  {
  }

  lemma {:induction false} DeviationExpand(f: Point -> real, g: Point -> real, a: real, b: real, s: seq<Point>)
    ensures SumOf(Deviation(f, g, a, b), s)
         == SumOf(Product(f, g), s) - a * SumOf(g, s) - b * SumOf(f, s) + |s| as real * a * b
    decreases |s|
  {
    hide SumOf;
    SumOfUnfold(Deviation(f, g, a, b), s);
    SumOfUnfold(Product(f, g), s);
    SumOfUnfold(f, s);
    SumOfUnfold(g, s);
    if |s| > 0 {
      var s', p := s[..|s| - 1], s[|s| - 1];
      DeviationExpand(f, g, a, b, s');
      assert |s| as real == |s'| as real + 1.0;
      assert (f(p) - a) * (g(p) - b) == f(p) * g(p) - a * g(p) - b * f(p) + a * b;
      assert |s| as real * a * b == |s'| as real * a * b + a * b;
    }
  }

  lemma MeanTimes(f: Point -> real, pts: seq<Point>)
    requires |pts| > 0
    ensures |pts| as real * Mean(f, pts) == SumOf(f, pts)
  {
  }

  // ---------------------------------------------------------------------------------------
  // Pairwise form

  /** Sum over all pairs i < j of (f(i) - f(j)) * (g(i) - g(j)). */
  ghost function PairSum(f: Point -> real, g: Point -> real, s: seq<Point>): real {
    if |s| == 0 then 0.0
    else
      var p := s[|s| - 1];
      PairSum(f, g, s[..|s| - 1]) + SumOf(Deviation(f, g, f(p), g(p)), s[..|s| - 1])
  }

  lemma PairSumUnfold(f: Point -> real, g: Point -> real, s: seq<Point>)
    ensures PairSum(f, g, s) == if |s| == 0 then 0.0 else
      var p := s[|s| - 1];
      PairSum(f, g, s[..|s| - 1]) + SumOf(Deviation(f, g, f(p), g(p)), s[..|s| - 1])
  {
  }

  lemma {:induction false} PairSumExpand(f: Point -> real, g: Point -> real, s: seq<Point>)
    ensures PairSum(f, g, s) == |s| as real * SumOf(Product(f, g), s) - SumOf(f, s) * SumOf(g, s)
    decreases |s|
  {
    hide SumOf, PairSum, Deviation;
    PairSumUnfold(f, g, s);
    SumOfUnfold(Product(f, g), s);
    SumOfUnfold(f, s);
    SumOfUnfold(g, s);
    if |s| > 0 {
      var s', p := s[..|s| - 1], s[|s| - 1];
      PairSumExpand(f, g, s');
      DeviationExpand(f, g, f(p), g(p), s');
      PairStep(|s'| as real, SumOf(f, s'), SumOf(g, s'), SumOf(Product(f, g), s'), f(p), g(p));
      assert |s| as real == |s'| as real + 1.0;
    }
  }

  lemma PairStep(n: real, sf: real, sg: real, sp: real, a: real, b: real)
    ensures n * sp - sf * sg + (sp - a * sg - b * sf + n * a * b)
         == (n + 1.0) * (sp + a * b) - (sf + a) * (sg + b)
  {
    assert (n + 1.0) * (sp + a * b) == n * sp + n * (a * b) + sp + a * b;
    assert (sf + a) * (sg + b) == sf * sg + sf * b + a * sg + a * b;
    assert n * a * b == n * (a * b);
  }

  lemma CentredProduct(n: real, a: real, b: real, sf: real, sg: real, sp: real, c: real)
    requires n * a == sf && n * b == sg
    requires c == sp - a * sg - b * sf + n * a * b
    ensures c == sp - a * sg
    ensures n * c == n * sp - sf * sg
  {
    assert n * a * b == sf * b;
    assert n * (a * sg) == sf * sg;
  }

  /** n times the covariation is the sum over all pairs. */
  lemma CovariationPairwise(f: Point -> real, g: Point -> real, pts: seq<Point>)
    requires |pts| > 0
    ensures |pts| as real * Covariation(f, g, pts) == PairSum(f, g, pts)
  {
    hide SumOf, PairSum, Mean;
    var a, b := Mean(f, pts), Mean(g, pts);
    MeanTimes(f, pts);
    MeanTimes(g, pts);
    DeviationExpand(f, g, a, b, pts);
    PairSumExpand(f, g, pts);
    CentredProduct(
      |pts| as real, a, b, SumOf(f, pts), SumOf(g, pts), SumOf(Product(f, g), pts), Covariation(f, g, pts));
  }

  ghost predicate PairSlopesWithin(pts: seq<Point>, lo: real, hi: real) {
    forall i, j :: 0 <= i < j < |pts| && pts[i].x != pts[j].x ==>
      lo <= (pts[i].y - pts[j].y) / (pts[i].x - pts[j].x) <= hi
  }

  ghost predicate DistinctX(pts: seq<Point>) {
    forall i, j :: 0 <= i < j < |pts| ==> pts[i].x != pts[j].x
  }

  /** lo * g <= f <= hi * g. */
  ghost predicate Between(lo: real, f: real, hi: real, g: real) {
    lo * g <= f <= hi * g
  }

  lemma BetweenAdd(lo: real, f1: real, f2: real, hi: real, g1: real, g2: real)
    requires Between(lo, f1, hi, g1) && Between(lo, f2, hi, g2)
    ensures Between(lo, f1 + f2, hi, g1 + g2)
  {
    assert lo * (g1 + g2) == lo * g1 + lo * g2;
    assert hi * (g1 + g2) == hi * g1 + hi * g2;
  }

  lemma {:induction false} SumOfBounds(f: Point -> real, g: Point -> real, lo: real, hi: real, s: seq<Point>)
    requires forall p :: p in s ==> Between(lo, f(p), hi, g(p))
    ensures Between(lo, SumOf(f, s), hi, SumOf(g, s))
    decreases |s|
  {
    if |s| > 0 {
      var s', p := s[..|s| - 1], s[|s| - 1];
      SumOfBounds(f, g, lo, hi, s');
      assert p in s;
      BetweenAdd(lo, SumOf(f, s'), f(p), hi, SumOf(g, s'), g(p));
    }
  }

  /** A bound on a quotient, multiplied out by the square of the divisor. */
  lemma QuotientBound(dx: real, dy: real, lo: real, hi: real, f: real, g: real)
    requires dx != 0.0 && lo <= dy / dx <= hi
    requires f == dx * dy && g == dx * dx
    ensures Between(lo, f, hi, g)
  {
    var q := dy / dx;
    Square(dx, g);
    assert q * dx == dy;
    assert q * g == f;
    assert (q - lo) * g >= 0.0 && (hi - q) * g >= 0.0;
  }

  lemma {:induction false} PairSumBounds(pts: seq<Point>, lo: real, hi: real)
    requires DistinctX(pts) && PairSlopesWithin(pts, lo, hi)
    ensures Between(lo, PairSum(X, Y, pts), hi, PairSum(X, X, pts))
    decreases |pts|
  {
    if |pts| > 0 {
      var s', p := pts[..|pts| - 1], pts[|pts| - 1];
      PairSumBounds(s', lo, hi);
      LastPairsBounds(pts, lo, hi);
      BetweenAdd(lo, PairSum(X, Y, s'), SumOf(Deviation(X, Y, p.x, p.y), s'),
                 hi, PairSum(X, X, s'), SumOf(Deviation(X, X, p.x, p.x), s'));
    }
  }

  lemma PairBounds(p: Point, q: Point, lo: real, hi: real)
    requires p.x != q.x && lo <= (q.y - p.y) / (q.x - p.x) <= hi
    ensures Between(lo, Deviation(X, Y, p.x, p.y)(q), hi, Deviation(X, X, p.x, p.x)(q))
  {
    QuotientBound(q.x - p.x, q.y - p.y, lo, hi, Deviation(X, Y, p.x, p.y)(q), Deviation(X, X, p.x, p.x)(q));
  }

  lemma LastPairsBounds(pts: seq<Point>, lo: real, hi: real)
    requires |pts| > 0 && DistinctX(pts) && PairSlopesWithin(pts, lo, hi)
    ensures
      var s', p := pts[..|pts| - 1], pts[|pts| - 1];
      Between(lo, SumOf(Deviation(X, Y, p.x, p.y), s'), hi, SumOf(Deviation(X, X, p.x, p.x), s'))
  {
    hide SumOf, Between, Deviation;
    var s', p := pts[..|pts| - 1], pts[|pts| - 1];
    var f, g := Deviation(X, Y, p.x, p.y), Deviation(X, X, p.x, p.x);
    forall q | q in s' ensures Between(lo, f(q), hi, g(q)) {
      var i :| 0 <= i < |s'| && s'[i] == q;
      assert pts[i] == q && pts[i].x != pts[|pts| - 1].x;
      PairBounds(p, q, lo, hi);
    }
    SumOfBounds(f, g, lo, hi, s');
  }

  lemma {:induction false} SumOfDominates(f: Point -> real, s: seq<Point>, i: nat)
    requires i < |s|
    requires forall p :: f(p) >= 0.0
    ensures SumOf(f, s) >= f(s[i]) && SumOf(f, s[..|s| - 1]) >= 0.0
    decreases |s|
  {
    var s' := s[..|s| - 1];
    if |s'| > 0 {
      SumOfDominates(f, s', if i < |s'| then i else 0);
    }
  }

  lemma SquaredDeviation(m: real, p: Point)
    ensures Deviation(X, X, m, m)(p) >= 0.0
    ensures p.x != m ==> Deviation(X, X, m, m)(p) > 0.0
  {
    Square(p.x - m, Deviation(X, X, m, m)(p));
  }

  /** Two different abscissae make the variation positive. */
  lemma VarPositive(pts: seq<Point>, i: nat, j: nat)
    requires i < |pts| && j < |pts| && pts[i].x != pts[j].x
    ensures Var(pts) > 0.0
  {
    hide SumOf, Mean, Deviation;
    var m := Mean(X, pts);
    forall p ensures Deviation(X, X, m, m)(p) >= 0.0 {
      SquaredDeviation(m, p);
    }
    var k := if pts[i].x != m then i else j;
    SquaredDeviation(m, pts[k]);
    SumOfDominates(Deviation(X, X, m, m), pts, k);
  }

  lemma PositiveProduct(a: real, b: real, z: real)
    requires z == a * b && ((a > 0.0 && b > 0.0) || (a < 0.0 && b < 0.0))
    ensures z > 0.0
  {
  }

  lemma Square(a: real, z: real)
    requires z == a * a
    ensures z >= 0.0 && (a != 0.0 ==> z > 0.0)
  {
    if a != 0.0 {
      PositiveProduct(a, a, z);
    }
  }

  lemma SignOfFactor(a: real, b: real)
    requires b > 0.0 && a * b >= 0.0
    ensures a >= 0.0
  {
  }

  lemma QuotientBetween(n: real, c: real, v: real, lo: real, hi: real)
    requires n > 0.0 && v > 0.0 && Between(lo, n * c, hi, n * v)
    ensures lo <= c / v <= hi
  {
    var q := c / v;
    assert q * v == c;
    assert n * v > 0.0;
    assert q * (n * v) == n * c;
    SignOfFactor(q - lo, n * v);
    SignOfFactor(hi - q, n * v);
  }

  /** The fitted slope lies within every range that holds all pairwise slopes. */
  lemma SlopeBetweenPairSlopes(pts: seq<Point>, lo: real, hi: real)
    requires |pts| >= 2 && DistinctX(pts) && PairSlopesWithin(pts, lo, hi)
    ensures Var(pts) > 0.0 && lo <= Slope(pts) <= hi
  {
    hide SumOf, PairSum, Covariation, PairSlopesWithin;
    VarPositive(pts, 0, 1);
    PairSumBounds(pts, lo, hi);
    CovariationPairwise(X, Y, pts);
    CovariationPairwise(X, X, pts);
    QuotientBetween(|pts| as real, Cov(pts), Var(pts), lo, hi);
  }

  lemma LineSlope(a: real, b: real, x0: real, x1: real, y0: real, y1: real)
    requires x0 != x1 && y0 == a + b * x0 && y1 == a + b * x1
    ensures (y0 - y1) / (x0 - x1) == b
  {
    var d := x0 - x1;
    assert y0 - y1 == b * d;
    assert (b * d) / d == b;
  }

  /** Points on a line are fitted by that line's slope. */
  lemma SlopeOfLine(pts: seq<Point>, a: real, b: real)
    requires |pts| >= 2 && DistinctX(pts)
    requires forall p :: p in pts ==> p.y == a + b * p.x
    ensures Var(pts) > 0.0 && Slope(pts) == b
  {
    forall i, j | 0 <= i < j < |pts| && pts[i].x != pts[j].x
      ensures (pts[i].y - pts[j].y) / (pts[i].x - pts[j].x) == b
    {
      assert pts[i] in pts && pts[j] in pts;
      LineSlope(a, b, pts[i].x, pts[j].x, pts[i].y, pts[j].y);
    }
    SlopeBetweenPairSlopes(pts, b, b);
  }

  // ---------------------------------------------------------------------------------------
  // Optimality

  /** The squared residual of the line a + b * x at a point. */
  function SquaredResidual(a: real, b: real): Point -> real {
    (p: Point) => (p.y - a - b * p.x) * (p.y - a - b * p.x)
  }

  function SquaredError(a: real, b: real, pts: seq<Point>): real {
    SumOf(SquaredResidual(a, b), pts)
  }

  /** Count and moments of a list of points. */
  datatype Moments = Moments(n: real, x: real, y: real, xx: real, xy: real, yy: real)

  ghost function MomentsOf(s: seq<Point>): Moments {
    Moments(|s| as real, SumOf(X, s), SumOf(Y, s),
            SumOf(Product(X, X), s), SumOf(Product(X, Y), s), SumOf(Product(Y, Y), s))
  }

  /** The squared error of the line a + b * x in terms of the moments. */
  ghost function ErrorForm(m: Moments, a: real, b: real): real {
    m.yy + b * b * m.xx + m.n * (a * a) - 2.0 * (b * m.xy) - 2.0 * (a * m.y) + 2.0 * (a * b * m.x)
  }

  /** The moments with one more point. */
  ghost function AddPoint(m: Moments, p: Point): Moments {
    Moments(m.n + 1.0, m.x + p.x, m.y + p.y, m.xx + p.x * p.x, m.xy + p.x * p.y, m.yy + p.y * p.y)
  }

  lemma ResidualExpand(a: real, b: real, x: real, y: real)
    ensures (y - a - b * x) * (y - a - b * x)
      == y * y + a * a + b * b * (x * x) - 2.0 * (a * y) - 2.0 * (b * (x * y)) + 2.0 * (a * b * x)
  {
  }

  lemma Distribute(c: real, u: real, v: real, w: real)
    requires w == u + v
    ensures c * w == c * u + c * v
  {
  }

  lemma ErrorFormStep(m: Moments, m': Moments, a: real, b: real, x: real, y: real, r: real)
    requires m' == Moments(m.n + 1.0, m.x + x, m.y + y, m.xx + x * x, m.xy + x * y, m.yy + y * y)
    requires r == y * y + a * a + b * b * (x * x) - 2.0 * (a * y) - 2.0 * (b * (x * y)) + 2.0 * (a * b * x)
    ensures ErrorForm(m', a, b) == ErrorForm(m, a, b) + r
  {
    Distribute(b * b, m.xx, x * x, m'.xx);
    Distribute(a * a, m.n, 1.0, m'.n);
    Distribute(b, m.xy, x * y, m'.xy);
    Distribute(a, m.y, y, m'.y);
    Distribute(a * b, m.x, x, m'.x);
  }

  lemma ErrorFormAddPoint(m: Moments, p: Point, a: real, b: real)
    ensures ErrorForm(AddPoint(m, p), a, b) == ErrorForm(m, a, b) + SquaredResidual(a, b)(p)
  {
    hide ErrorForm;
    ResidualExpand(a, b, p.x, p.y);
    PointTerms(a, b, p);
    ErrorFormStep(m, AddPoint(m, p), a, b, p.x, p.y, SquaredResidual(a, b)(p));
  }

  lemma PointTerms(a: real, b: real, p: Point)
    ensures Product(X, X)(p) == p.x * p.x && Product(X, Y)(p) == p.x * p.y && Product(Y, Y)(p) == p.y * p.y
    ensures SquaredResidual(a, b)(p) == (p.y - a - b * p.x) * (p.y - a - b * p.x)
  {
  }

  lemma MomentsStep(s: seq<Point>)
    requires |s| > 0
    ensures MomentsOf(s) == AddPoint(MomentsOf(s[..|s| - 1]), s[|s| - 1])
  {
    hide SumOf;
    SumOfUnfold(X, s);
    SumOfUnfold(Y, s);
    SumOfUnfold(Product(X, X), s);
    SumOfUnfold(Product(X, Y), s);
    SumOfUnfold(Product(Y, Y), s);
    PointTerms(0.0, 0.0, s[|s| - 1]);
  }

  lemma {:induction false} ErrorExpand(a: real, b: real, s: seq<Point>)
    ensures SquaredError(a, b, s) == ErrorForm(MomentsOf(s), a, b)
    decreases |s|
  {
    if |s| > 0 {
      var s', p := s[..|s| - 1], s[|s| - 1];
      ErrorExpand(a, b, s');
      ErrorExpandStep(a, b, s);
    }
  }

  lemma ErrorExpandStep(a: real, b: real, s: seq<Point>)
    requires |s| > 0 && SquaredError(a, b, s[..|s| - 1]) == ErrorForm(MomentsOf(s[..|s| - 1]), a, b)
    ensures SquaredError(a, b, s) == ErrorForm(MomentsOf(s), a, b)
  {
    hide SumOf, ErrorForm, MomentsOf, SquaredResidual, AddPoint;
    SumOfUnfold(SquaredResidual(a, b), s);
    MomentsStep(s);
    ErrorFormAddPoint(MomentsOf(s[..|s| - 1]), s[|s| - 1], a, b);
  }

  /** The error in terms of the centred moments: only the last term depends on the intercept. */
  lemma ErrorCentred(m: Moments, mx: real, my: real, a: real, b: real, cxx: real, cxy: real)
    requires m.x == m.n * mx && m.y == m.n * my && cxx == m.xx - mx * m.x && cxy == m.xy - mx * m.y
    ensures ErrorForm(m, a, b) == (m.yy - m.n * (my * my)) + b * b * cxx - 2.0 * (b * cxy)
            + m.n * ((a - my + b * mx) * (a - my + b * mx))
  {
    var n := m.n;
    assert (a - my + b * mx) * (a - my + b * mx)
        == a * a + my * my + b * b * (mx * mx) - 2.0 * (a * my) + 2.0 * (a * b * mx) - 2.0 * (b * (mx * my));
    assert b * b * cxx == b * b * m.xx - b * b * (mx * (n * mx));
    assert b * cxy == b * m.xy - b * (mx * (n * my));
    assert a * b * m.x == a * b * (n * mx) && a * m.y == a * (n * my);
  }

  lemma CompleteSquare(c: real, v: real, q: real, b: real)
    requires c == q * v
    ensures b * b * v - 2.0 * (b * c) == q * q * v - 2.0 * (q * c) + v * ((b - q) * (b - q))
  {
    assert (b - q) * (b - q) == b * b - 2.0 * (b * q) + q * q;
    assert v * ((b - q) * (b - q)) == b * b * v - 2.0 * (b * c) + q * c;
    assert q * q * v == q * c;
  }

  lemma ErrorOfLine(a: real, b: real, pts: seq<Point>)
    requires |pts| > 0
    ensures
      var n, mx, my := |pts| as real, Mean(X, pts), Mean(Y, pts);
      SquaredError(a, b, pts) == (SumOf(Product(Y, Y), pts) - n * (my * my))
        + b * b * Var(pts) - 2.0 * (b * Cov(pts)) + n * ((a - my + b * mx) * (a - my + b * mx))
  {
    hide SumOf, Mean, ErrorForm;
    var n, mx, my := |pts| as real, Mean(X, pts), Mean(Y, pts);
    var m := MomentsOf(pts);
    MeanTimes(X, pts);
    MeanTimes(Y, pts);
    DeviationExpand(X, X, mx, mx, pts);
    DeviationExpand(X, Y, mx, my, pts);
    CentredProduct(n, mx, mx, m.x, m.x, m.xx, Var(pts));
    CentredProduct(n, mx, my, m.x, m.y, m.xy, Cov(pts));
    ErrorExpand(a, b, pts);
    ErrorCentred(m, mx, my, a, b, Var(pts), Cov(pts));
  }

  /** How far any line's error exceeds that of the fitted line. */
  lemma ErrorDecomposition(a: real, b: real, pts: seq<Point>)
    requires |pts| > 0 && Var(pts) > 0.0
    ensures
      var d, e := b - Slope(pts), a - Mean(Y, pts) + b * Mean(X, pts);
      SquaredError(a, b, pts)
        == SquaredError(Intercept(pts), Slope(pts), pts) + Var(pts) * (d * d) + |pts| as real * (e * e)
  {
    hide SumOf, Mean, SquaredError, Covariation;
    ErrorOfLine(a, b, pts);
    ErrorOfLine(Intercept(pts), Slope(pts), pts);
    ErrorDifference(SumOf(Product(Y, Y), pts) - |pts| as real * (Mean(Y, pts) * Mean(Y, pts)), Cov(pts), Var(pts),
      |pts| as real, Mean(X, pts), Mean(Y, pts), a, b,
      SquaredError(a, b, pts), SquaredError(Intercept(pts), Slope(pts), pts));
  }

  lemma ErrorDifference(
      w: real, c: real, v: real, n: real, mx: real, my: real, a: real, b: real, e: real, e0: real)
    requires v > 0.0
    requires e == w + b * b * v - 2.0 * (b * c) + n * ((a - my + b * mx) * (a - my + b * mx))
    requires
      var q := c / v;
      var i := my - q * mx;
      e0 == w + q * q * v - 2.0 * (q * c) + n * ((i - my + q * mx) * (i - my + q * mx))
    ensures
      var d, r := b - c / v, a - my + b * mx;
      e == e0 + v * (d * d) + n * (r * r)
  {
    var q := c / v;
    assert q * v == c;
    CompleteSquare(c, v, q, b);
  }

  lemma WeightedSquares(v: real, n: real, d: real, e: real, z: real)
    requires v > 0.0 && n > 0.0 && z == v * (d * d) + n * (e * e)
    ensures z >= 0.0 && (z == 0.0 <==> d == 0.0 && e == 0.0)
  {
    var dd, ee := d * d, e * e;
    Square(d, dd);
    Square(e, ee);
    if dd > 0.0 { PositiveProduct(v, dd, v * dd); }
    if ee > 0.0 { PositiveProduct(n, ee, n * ee); }
  }

  lemma FittedLineLeast(a: real, b: real, pts: seq<Point>)
    requires |pts| > 0 && Var(pts) > 0.0
    ensures SquaredError(Intercept(pts), Slope(pts), pts) <= SquaredError(a, b, pts)
    ensures SquaredError(Intercept(pts), Slope(pts), pts) == SquaredError(a, b, pts)
      <==> b == Slope(pts) && a == Intercept(pts)
  {
    hide SumOf, Covariation;
    ErrorDecomposition(a, b, pts);
    var d, e := b - Slope(pts), a - Mean(Y, pts) + b * Mean(X, pts);
    WeightedSquares(
      Var(pts), |pts| as real, d, e, SquaredError(a, b, pts) - SquaredError(Intercept(pts), Slope(pts), pts));
    if b == Slope(pts) {
      assert e == a - Intercept(pts);
    }
  }

  /** No line has a smaller sum of squared residuals than a + b * x. */
  ghost predicate BestLine(a: real, b: real, pts: seq<Point>) {
    forall a', b' :: SquaredError(a, b, pts) <= SquaredError(a', b', pts)
  }

  /** The fitted line is best, and it is the only best line. */
  lemma FittedLineIsOptimal(a: real, b: real, pts: seq<Point>)
    requires |pts| > 0 && Var(pts) > 0.0
    ensures BestLine(a, b, pts) <==> a == Intercept(pts) && b == Slope(pts)
  {
    hide SquaredError, Covariation, Mean;
    forall a', b' ensures SquaredError(Intercept(pts), Slope(pts), pts) <= SquaredError(a', b', pts) {
      FittedLineLeast(a', b', pts);
    }
    FittedLineLeast(a, b, pts);
  }

  // ---------------------------------------------------------------------------------------
  // Shifting and reordering the points

  function Shift(u: real, v: real): Point -> Point {
    (p: Point) => Point(p.x + u, p.y + v)
  }

  lemma {:induction false} SumOfShift(f: Point -> real, w: real, h: Point -> Point, s: seq<Point>)
    requires forall p :: f(h(p)) == f(p) + w
    ensures SumOf(f, Map(h, s)) == SumOf(f, s) + |s| as real * w
    decreases |s|
  {
    if |s| > 0 {
      assert Map(h, s)[..|s| - 1] == Map(h, s[..|s| - 1]);
      SumOfShift(f, w, h, s[..|s| - 1]);
      assert |s| as real * w == (|s| - 1) as real * w + w;
    }
  }

  lemma {:induction false} SumOfSame(f: Point -> real, g: Point -> real, h: Point -> Point, s: seq<Point>)
    requires forall p :: f(h(p)) == g(p)
    ensures SumOf(f, Map(h, s)) == SumOf(g, s)
    decreases |s|
  {
    if |s| > 0 {
      assert Map(h, s)[..|s| - 1] == Map(h, s[..|s| - 1]);
      SumOfSame(f, g, h, s[..|s| - 1]);
    }
  }

  lemma MeanShift(f: Point -> real, w: real, h: Point -> Point, pts: seq<Point>)
    requires |pts| > 0
    requires forall p :: f(h(p)) == f(p) + w
    ensures Mean(f, Map(h, pts)) == Mean(f, pts) + w
  {
    hide SumOf;
    SumOfShift(f, w, h, pts);
    var n := |pts| as real;
    assert (SumOf(f, pts) + n * w) / n == SumOf(f, pts) / n + w;
  }

  /** Moving all points by the same vector changes neither sum. */
  lemma ShiftInvariant(u: real, v: real, pts: seq<Point>)
    requires |pts| > 0
    ensures Cov(Map(Shift(u, v), pts)) == Cov(pts)
    ensures Var(Map(Shift(u, v), pts)) == Var(pts)
  {
    hide SumOf, Mean;
    var h := Shift(u, v);
    MeanShift(X, u, h, pts);
    MeanShift(Y, v, h, pts);
    var mx, my := Mean(X, pts), Mean(Y, pts);
    SumOfSame(Deviation(X, Y, mx + u, my + v), Deviation(X, Y, mx, my), h, pts);
    SumOfSame(Deviation(X, X, mx + u, mx + u), Deviation(X, X, mx, mx), h, pts);
  }

  lemma OrderInvariant(s: seq<Point>, t: seq<Point>)
    requires Permutation(s, t) && |s| > 0
    ensures |t| == |s| && Cov(s) == Cov(t) && Var(s) == Var(t)
  {
    PermutationLength(s, t);
    SumOfPermutation(X, s, t);
    SumOfPermutation(Y, s, t);
    var mx, my := Mean(X, s), Mean(Y, s);
    SumOfPermutation(Deviation(X, Y, mx, my), s, t);
    SumOfPermutation(Deviation(X, X, mx, mx), s, t);
  }
}
