/** What leaving points out does to the load curve. */
module LeavingOut {
  import opened Collections
  import opened Sorting
  import opened LeastSquares
  import opened Interpolation

  /** Two points on a segment span the same segment. */
  lemma Chord(p0: Point, p1: Point, u: Point, v: Point, x: real)
    requires u.x != v.x && u.y == Segment(p0, p1, u.x) && v.y == Segment(p0, p1, v.x)
    ensures Segment(u, v, x) == Segment(p0, p1, x)
  {
    if p0.x == p1.x {
      FlatSegment(u, v, x);
    } else {
      hide Segment;
      var a, b := LineThrough(p0, p1);
      SegmentOnLine(a, b, p0, p1, u.x);
      SegmentOnLine(a, b, p0, p1, v.x);
      SegmentOnLine(a, b, p0, p1, x);
      SegmentOnLine(a, b, u, v, x);
    }
  }

  /** Between two points of the curve without a knot between them, the curve is their segment. */
  lemma FreeGap(c: seq<Point>, u: Point, v: Point, x: real)
    requires Ordered(X, c) && Consistent(X, c) && |c| > 0 && u.x < v.x && u.x <= x <= v.x
    requires Curve(c, u.x) == u.y && Curve(c, v.x) == v.y
    requires forall p :: p in c ==> p.x <= u.x || p.x >= v.x
    ensures Segment(u, v, x) == Curve(c, x)
  {
    hide Segment, Consistent;
    var n := |c|;
    assert c[0] in c && c[n - 1] in c;
    if n == 1 {
      FlatSegment(u, v, x);
    } else if v.x <= c[0].x {
      hide Curve;
      LeftOf(c, u.x);
      LeftOf(c, v.x);
      LeftOf(c, x);
      Chord(c[0], c[1], u, v, x);
    } else if c[n - 1].x <= u.x {
      hide Curve;
      RightOf(c, u.x);
      RightOf(c, v.x);
      RightOf(c, x);
      Chord(c[n - 2], c[n - 1], u, v, x);
    } else {
      hide Curve;
      var i := Scan(c, v.x, 0);
      assert i + 1 < n && c[i].x < v.x;
      assert c[i] in c && c[i + 1] in c;
      CurveBetween(c, i, u.x);
      CurveBetween(c, i, v.x);
      CurveBetween(c, i, x);
      Chord(c[i], c[i + 1], u, v, x);
    }
  }

  lemma LeftOf(c: seq<Point>, x: real)
    requires Ordered(X, c) && Consistent(X, c) && |c| >= 2 && x <= c[0].x
    ensures Curve(c, x) == Segment(c[0], c[1], x)
  {
    hide Segment, Curve;
    CurveEnds(c, x);
  }

  lemma RightOf(c: seq<Point>, x: real)
    requires Ordered(X, c) && Consistent(X, c) && |c| >= 2 && c[|c| - 1].x <= x
    ensures Curve(c, x) == Segment(c[|c| - 2], c[|c| - 1], x)
  {
    hide Segment, Curve;
    CurveEnds(c, x);
  }

  /** The lowest two points, if there are two, have the same value: the curve is flat to their left. */
  ghost predicate FlatHead(c: seq<Point>) {
    |c| >= 2 ==> c[0].y == c[1].y
  }

  ghost predicate FlatLast(c: seq<Point>) {
    |c| >= 2 ==> c[|c| - 2].y == c[|c| - 1].y
  }

  /** The lowest load was measured twice. */
  ghost predicate TwiceFirst(s: seq<Point>) {
    |s| >= 2 && s[0].x == s[1].x
  }

  ghost predicate TwiceLast(s: seq<Point>) {
    |s| >= 2 && s[|s| - 2].x == s[|s| - 1].x
  }

  /** The points of c are among those of s, each at most as often, and no load carries two values. */
  ghost predicate Refines(s: seq<Point>, c: seq<Point>) {
    Ordered(X, s) && Consistent(X, s) && Ordered(X, c) && multiset(c) <= multiset(s)
  }

  lemma RefinesMembers(s: seq<Point>, c: seq<Point>)
    requires Refines(s, c)
    ensures Consistent(X, c) && |c| <= |s|
    ensures forall p :: p in c ==> p in s
  {
    assert |multiset(c)| <= |multiset(s)| by {
      assert multiset(s) == multiset(c) + (multiset(s) - multiset(c));
    }
    forall p | p in c ensures p in s {
      assert p in multiset(c);
    }
    forall i, j | 0 <= i < |c| && 0 <= j < |c| && X(c[i]) == X(c[j]) ensures c[i] == c[j] {
      assert c[i] in s && c[j] in s;
    }
  }

  /** Two copies of the first point put the second at the same load. */
  lemma RefinesTwice(s: seq<Point>, c: seq<Point>)
    requires Refines(s, c) && |c| >= 2
    ensures c[0].x == s[0].x && c[1].x == c[0].x ==> TwiceFirst(s)
    ensures |s| >= 2 && c[|c| - 1].x == s[|s| - 1].x && c[|c| - 2].x == c[|c| - 1].x ==> TwiceLast(s)
  {
    RefinesMembers(s, c);
    var m, n := |c|, |s|;
    if X(c[0]) == X(c[1]) && X(c[0]) == X(s[0]) {
      RepeatedCount(c, 0, 1);
      var i, j := CountTwice(s, c[0]);
      assert X(s[0]) <= X(s[1]) && X(s[1]) <= X(s[j]);
    }
    if X(c[m - 2]) == X(c[m - 1]) && X(c[m - 1]) == X(s[n - 1]) {
      RepeatedCount(c, m - 2, m - 1);
      var i, j := CountTwice(s, c[m - 1]);
      assert X(s[i]) <= X(s[n - 2]) <= X(s[n - 1]);
    }
  }

  /** Where the points of s lie on the curve through c, which is flat beyond every end of s that was measured
      twice, the two curves are the same. */
  lemma SameCurve(s: seq<Point>, c: seq<Point>, x: real)
    requires Refines(s, c) && |c| > 0
    requires forall p :: p in s ==> Curve(c, p.x) == p.y
    requires (TwiceFirst(s) ==> FlatHead(c)) && (TwiceLast(s) ==> FlatLast(c))
    ensures Curve(s, x) == Curve(c, x)
  {
    hide Curve, Segment, Consistent, TwiceFirst, TwiceLast;
    RefinesMembers(s, c);
    var n := |s|;
    if n == 1 {
      assert c[0] in s;
      CurveOfOne(s, x);
      CurveOfOne(c, x);
    } else if x <= s[0].x {
      SameLeft(s, c, x);
    } else if x >= s[n - 1].x {
      SameRight(s, c, x);
    } else {
      var i := Scan(s, x, 0);
      Bracketing(s, x);
      forall p | p in c ensures p.x <= s[i].x || p.x >= s[i + 1].x {
        OutsideGap(s, i, p);
      }
      assert s[i] in s && s[i + 1] in s;
      FreeGap(c, s[i], s[i + 1], x);
      CurveBetween(s, i, x);
    }
  }

  lemma OutsideGap(s: seq<Point>, i: nat, p: Point)
    requires Ordered(X, s) && i + 1 < |s| && p in s
    ensures p.x <= s[i].x || p.x >= s[i + 1].x
  {
    var k :| 0 <= k < |s| && s[k] == p;
    if k < i {
      assert X(s[k]) <= X(s[i]);
    } else if k > i + 1 {
      assert X(s[i + 1]) <= X(s[k]);
    }
  }

  lemma SameLeft(s: seq<Point>, c: seq<Point>, x: real)
    requires Refines(s, c) && |c| > 0 && |s| >= 2 && x <= s[0].x
    requires forall p :: p in s ==> Curve(c, p.x) == p.y
    requires TwiceFirst(s) ==> FlatHead(c)
    ensures Curve(s, x) == Curve(c, x)
  {
    hide Curve, Segment;
    RefinesMembers(s, c);
    LeftOf(s, x);
    assert s[0] in s && s[1] in s && c[0] in s && X(s[0]) <= X(s[1]);
    OutsideGap(s, 0, c[0]);
    if |c| == 1 {
      CurveOfOne(c, s[0].x);
      CurveOfOne(c, s[1].x);
      CurveOfOne(c, x);
      FlatSegment(s[0], s[1], x);
    } else {
      assert c[1] in s;
      OutsideGap(s, 0, c[1]);
      assert X(c[0]) <= X(c[1]) && X(s[0]) <= X(c[0]) by { FirstLowest(s, c[0]); }
      LeftOf(c, x);
      if TwiceFirst(s) {
        LeftOf(c, s[0].x);
        FlatSegment(c[0], c[1], x);
        FlatSegment(c[0], c[1], s[0].x);
        assert X(s[0]) == X(s[1]);
        FlatSegment(s[0], s[1], x);
      } else {
        RefinesTwice(s, c);
        LeftOf(c, s[0].x);
        if s[1].x <= c[0].x {
          LeftOf(c, s[1].x);
        } else {
          CurveBetween(c, 0, s[1].x);
        }
        Chord(c[0], c[1], s[0], s[1], x);
      }
    }
  }

  lemma SameRight(s: seq<Point>, c: seq<Point>, x: real)
    requires Refines(s, c) && |c| > 0 && |s| >= 2 && x >= s[|s| - 1].x
    requires forall p :: p in s ==> Curve(c, p.x) == p.y
    requires TwiceLast(s) ==> FlatLast(c)
    ensures Curve(s, x) == Curve(c, x)
  {
    hide Curve, Segment;
    RefinesMembers(s, c);
    RightOf(s, x);
    var n, m := |s|, |c|;
    var u, v := s[n - 2], s[n - 1];
    var a, b := c[|c| - 1], c[|c| - 1];
    assert u in s && v in s && b in s && X(u) <= X(v);
    OutsideGap(s, n - 2, b);
    if m == 1 {
      CurveOfOne(c, u.x);
      CurveOfOne(c, v.x);
      CurveOfOne(c, x);
      FlatSegment(u, v, x);
    } else {
      a := c[m - 2];
      assert a in s;
      OutsideGap(s, n - 2, a);
      assert X(a) <= X(b) && X(b) <= X(v) by { LastHighest(s, b); }
      RightOf(c, x);
      if TwiceLast(s) {
        RightOf(c, v.x);
        FlatSegment(a, b, x);
        FlatSegment(a, b, v.x);
        assert X(u) == X(v);
        FlatSegment(u, v, x);
      } else {
        RefinesTwice(s, c);
        RightOf(c, v.x);
        if b.x <= u.x {
          RightOf(c, u.x);
        } else {
          CurveBetween(c, m - 2, u.x);
        }
        Chord(a, b, u, v, x);
      }
    }
  }

  lemma CurveOfOne(p: seq<Point>, x: real)
    requires |p| == 1
    ensures Curve(p, x) == p[0].y
  {
  }

  lemma FirstLowest(s: seq<Point>, p: Point)
    requires Ordered(X, s) && p in s
    ensures s[0].x <= p.x
  {
    var k :| 0 <= k < |s| && s[k] == p;
    assert k > 0 ==> X(s[0]) <= X(s[k]);
  }

  lemma LastHighest(s: seq<Point>, p: Point)
    requires Ordered(X, s) && p in s
    ensures p.x <= s[|s| - 1].x
  {
    var k :| 0 <= k < |s| && s[k] == p;
    assert k < |s| - 1 ==> X(s[k]) <= X(s[|s| - 1]);
  }

  /** A segment that takes one value twice is flat. */
  lemma FlatTwice(p0: Point, p1: Point, x: real, y: real)
    requires p0.x != p1.x && x != y && Segment(p0, p1, x) == Segment(p0, p1, y)
    ensures p0.y == p1.y
  {
    hide Segment;
    var a, b := LineThrough(p0, p1);
    SegmentOnLine(a, b, p0, p1, x);
    SegmentOnLine(a, b, p0, p1, y);
    ZeroSlope(b, x - y);
    assert b * (x - y) == b * x - b * y;
  }

  lemma ZeroSlope(b: real, d: real)
    requires d != 0.0
    ensures b * d == 0.0 ==> b == 0.0
  {
  }

  lemma FlatLeftAt(s: seq<Point>, c: seq<Point>, x: real)
    requires Refines(s, c) && |c| >= 2 && TwiceFirst(s) && x <= s[0].x && s[0].y > 0.0
    requires Max(0.0, Curve(s, x)) == Max(0.0, Curve(c, x))
    ensures Segment(c[0], c[1], x) == s[0].y
  {
    hide Curve, Segment;
    RefinesMembers(s, c);
    assert X(s[0]) == X(s[1]) && c[0] in s;
    FirstLowest(s, c[0]);
    LeftOf(s, x);
    LeftOf(c, x);
    FlatSegment(s[0], s[1], x);
  }

  lemma FlatRightAt(s: seq<Point>, c: seq<Point>, x: real)
    requires Refines(s, c) && |c| >= 2 && TwiceLast(s) && x >= s[|s| - 1].x && s[|s| - 1].y > 0.0
    requires Max(0.0, Curve(s, x)) == Max(0.0, Curve(c, x))
    ensures Segment(c[|c| - 2], c[|c| - 1], x) == s[|s| - 1].y
  {
    hide Curve, Segment;
    RefinesMembers(s, c);
    assert X(s[|s| - 2]) == X(s[|s| - 1]) && c[|c| - 1] in s;
    LastHighest(s, c[|c| - 1]);
    RightOf(s, x);
    RightOf(c, x);
    FlatSegment(s[|s| - 2], s[|s| - 1], x);
  }

  /** An end of s that was measured twice makes its clamped curve flat beyond that end. */
  lemma FlatEnds(s: seq<Point>, c: seq<Point>)
    requires Refines(s, c) && forall p :: p in s ==> p.y > 0.0
    requires forall x :: Max(0.0, Curve(s, x)) == Max(0.0, Curve(c, x))
    ensures (TwiceFirst(s) ==> FlatHead(c)) && (TwiceLast(s) ==> FlatLast(c))
  {
    hide Curve, Segment;
    RefinesMembers(s, c);
    var n, m := |s|, |c|;
    if TwiceFirst(s) && m >= 2 && X(c[0]) != X(c[1]) {
      FlatLeftAt(s, c, s[0].x);
      FlatLeftAt(s, c, s[0].x - 1.0);
      FlatTwice(c[0], c[1], s[0].x, s[0].x - 1.0);
    }
    if TwiceLast(s) && m >= 2 && X(c[m - 2]) != X(c[m - 1]) {
      FlatRightAt(s, c, s[n - 1].x);
      FlatRightAt(s, c, s[n - 1].x + 1.0);
      FlatTwice(c[m - 2], c[m - 1], s[n - 1].x, s[n - 1].x + 1.0);
    }
  }

  /** Points can be left out without changing the clamped curve anywhere exactly when they lie on the curve of
      those kept and that curve is flat beyond every end that was measured twice. */
  lemma ClampedCurveIff(s: seq<Point>, c: seq<Point>)
    requires Refines(s, c) && forall p :: p in s ==> p.y > 0.0
    ensures (forall x :: Max(0.0, Curve(s, x)) == Max(0.0, Curve(c, x)))
      <==> ((forall p :: p in s ==> Curve(c, p.x) == p.y)
        && (TwiceFirst(s) ==> FlatHead(c)) && (TwiceLast(s) ==> FlatLast(c)))
  {
    hide Curve, TwiceFirst, TwiceLast, FlatHead, FlatLast;
    if forall x :: Max(0.0, Curve(s, x)) == Max(0.0, Curve(c, x)) {
      FlatEnds(s, c);
      forall p | p in s ensures Curve(c, p.x) == p.y {
        var k :| 0 <= k < |s| && s[k] == p;
        CurveAtKnot(s, k);
        assert Max(0.0, Curve(s, p.x)) == Max(0.0, Curve(c, p.x));
      }
    }
    if && (forall p :: p in s ==> Curve(c, p.x) == p.y)
       && (TwiceFirst(s) ==> FlatHead(c)) && (TwiceLast(s) ==> FlatLast(c)) {
      forall x ensures Curve(s, x) == Curve(c, x) {
        if |c| > 0 {
          SameCurve(s, c, x);
        } else {
          NothingKept(s, c, x);
        }
      }
    }
  }

  lemma NothingKept(s: seq<Point>, c: seq<Point>, x: real)
    requires |c| == 0 && forall p :: p in s ==> p.y > 0.0 && Curve(c, p.x) == p.y
    ensures Curve(s, x) == Curve(c, x)
  {
    SomeMember(s);
  }
}
