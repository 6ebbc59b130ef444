/** What the estimator promises: scaling with retention, reproduction of measurements, independence
    of units and of row order. */
module CapacityTheorems {
  import opened Collections
  import opened Sorting
  import opened LeastSquares
  import opened Interpolation
  import opened PowerLaw
  import opened CapacityModel

  // ---------------------------------------------------------------------------------------
  // The exponent

  /** Every clamp and every default lies in the resource's interval. */
  lemma AlphaRange(m: MathLib, rows: seq<Row>, key: ResourceKey)
    ensures Alpha(m, rows, key) >= 0.0
    ensures key == DiskBytes ==> 0.6 <= Alpha(m, rows, key) <= 1.4
    ensures key == MemPeakBytes ==> Alpha(m, rows, key) <= 0.8
    ensures key == CpuCores ==> Alpha(m, rows, key) <= 0.6
  {
    hide Observations, Periods, LogPoints, Cov, Var;
  }

  lemma ObservationsPositive(rows: seq<Row>, key: ResourceKey, o: Observation)
    requires o in Observations(rows, key)
    ensures o.value > 0.0
    ensures PositivePeriods(rows, key) ==> o.period > 0.0
  {
    FilterMapMembers(ObservationOf(key), rows, o);
  }

  lemma GroupMembers(obs: seq<Observation>, period: real, v: real)
    ensures v in Group(obs, period) <==> Observation(period, v) in obs
  {
    FilterMapMembers(ValueAt(period), obs, v);
    if exists o :: o in obs && ValueAt(period)(o) == Some(v) {
      var o :| o in obs && ValueAt(period)(o) == Some(v);
      assert o == Observation(period, v);
    }
    if Observation(period, v) in obs {
      assert ValueAt(period)(Observation(period, v)) == Some(v);
    }
  }

  /** The upper median of a nonempty list is one of its values. */
  lemma MedianMember(vals: seq<real>)
    requires |vals| > 0
    ensures Median(vals) in vals
  {
    SortedSorts(Identity, vals);
    PermutationLength(Sorted(Identity, vals), vals);
  }

  lemma MedianPositive(rows: seq<Row>, key: ResourceKey, period: real)
    requires period in Periods(Observations(rows, key))
    ensures Median(Group(Observations(rows, key), period)) > 0.0
  {
    var obs := Observations(rows, key);
    PeriodsNoDuplicates(obs);
    var o :| o in obs && o.period == period;
    GroupMembers(obs, period, o.value);
    assert o.value in Group(obs, period);
    MedianMember(Group(obs, period));
    var med := Median(Group(obs, period));
    GroupMembers(obs, period, med);
    ObservationsPositive(rows, key, Observation(period, med));
  }

  lemma {:induction false} LogPointsDistinct(m: MathLib, obs: seq<Observation>, periods: seq<real>)
    requires m.Lawful() && NoDuplicates(periods)
    ensures DistinctX(FilterMap(LogPoint(m, obs), periods))
    decreases |periods|
  {
    if |periods| > 0 {
      var init, last := periods[..|periods| - 1], periods[|periods| - 1];
      LogPointsDistinct(m, obs, init);
      var pts := FilterMap(LogPoint(m, obs), init);
      if LogPoint(m, obs)(last).Some? {
        forall i | 0 <= i < |pts| ensures pts[i].x != m.log(last) {
          FilterMapMembers(LogPoint(m, obs), init, pts[i]);
          var p :| p in init && LogPoint(m, obs)(p) == Some(pts[i]);
          m.LogInjective(p, last);
        }
      }
    }
  }

  /** The guard against a zero denominator never fires: different periods have different logarithms. */
  lemma VrFallbackUnreachable(m: MathLib, obs: seq<Observation>)
    requires m.Lawful() && |LogPoints(m, obs)| >= 2
    ensures DistinctX(LogPoints(m, obs)) && Var(LogPoints(m, obs)) > 0.0
  {
    PeriodsNoDuplicates(obs);
    LogPointsDistinct(m, obs, Periods(obs));
    VarPositive(LogPoints(m, obs), 0, 1);
  }

  ghost predicate Loggable(obs: seq<Observation>, period: real) {
    period > 0.0 && Median(Group(obs, period)) > 0.0
  }

  lemma {:induction false} AllPeriodsKept(m: MathLib, obs: seq<Observation>, periods: seq<real>)
    requires forall p :: p in periods ==> Loggable(obs, p)
    ensures |FilterMap(LogPoint(m, obs), periods)| == |periods|
    decreases |periods|
  {
    if |periods| > 0 {
      AllPeriodsKept(m, obs, periods[..|periods| - 1]);
      assert periods[|periods| - 1] in periods;
      assert Loggable(obs, periods[|periods| - 1]);
    }
  }

  lemma PowerLawPoint(m: MathLib, obs: seq<Observation>, c: real, a: real, p: Point)
    requires m.Lawful() && c > 0.0 && p in LogPoints(m, obs)
    requires forall t :: t in Periods(obs) ==> t > 0.0 && Median(Group(obs, t)) == c * m.pow(t, a)
    ensures p.y == m.log(c) + a * p.x
  {
    hide Median, Group, Periods, FilterMap, MathLib.Lawful;
    FilterMapMembers(LogPoint(m, obs), Periods(obs), p);
    var t :| t in Periods(obs) && LogPoint(m, obs)(t) == Some(p);
    m.LogOfPower(t, a);
    m.LogProduct(c, m.pow(t, a), Median(Group(obs, t)));
  }

  /** v is the number nearest to b that lies in lo..hi. */
  ghost predicate Nearest(v: real, b: real, lo: real, hi: real) {
    if b < lo then v == lo else if b > hi then v == hi else v == b
  }

  /** If the medians follow c * period^a exactly, the exponent is a, or the nearest the resource allows. */
  lemma PowerLawRecovered(m: MathLib, rows: seq<Row>, key: ResourceKey, c: real, a: real)
    requires m.Lawful() && c > 0.0
    requires PositivePeriods(rows, key) && |Periods(Observations(rows, key))| >= 2
    requires forall t :: t in Periods(Observations(rows, key)) ==>
      Median(Group(Observations(rows, key), t)) == c * m.pow(t, a)
    ensures key == DiskBytes ==> Nearest(Alpha(m, rows, key), a, 0.6, 1.4)
    ensures key == MemPeakBytes ==> Nearest(Alpha(m, rows, key), a, 0.0, 0.8)
    ensures key == CpuCores ==> Nearest(Alpha(m, rows, key), a, 0.0, 0.6)
  {
    var obs := Observations(rows, key);
    var pts := LogPoints(m, obs);
    PeriodsPositive(rows, key);
    forall t | t in Periods(obs) ensures Loggable(obs, t) {
      MedianPositive(rows, key, t);
    }
    AllPeriodsKept(m, obs, Periods(obs));
    VrFallbackUnreachable(m, obs);
    forall p | p in pts ensures p.y == m.log(c) + a * p.x {
      PowerLawPoint(m, obs, c, a, p);
    }
    SlopeOfLine(pts, m.log(c), a);
  }

  /** The log-log points have exactly one best line, and the exponent is its slope, or the nearest the resource
      allows. */
  lemma AlphaIsBestExponent(m: MathLib, rows: seq<Row>, key: ResourceKey) returns (a: real, b: real)
    requires m.Lawful()
    ensures |LogPoints(m, Observations(rows, key))| >= 2 ==>
      && (key == DiskBytes ==> Nearest(Alpha(m, rows, key), b, 0.6, 1.4))
      && (key == MemPeakBytes ==> Nearest(Alpha(m, rows, key), b, 0.0, 0.8))
      && (key == CpuCores ==> Nearest(Alpha(m, rows, key), b, 0.0, 0.6))
      && forall a', b' :: BestLine(a', b', LogPoints(m, Observations(rows, key))) <==> a' == a && b' == b
  {
    hide BestLine, LogPoint, Covariation, Mean;
    var obs := Observations(rows, key);
    var pts := LogPoints(m, obs);
    if |pts| < 2 {
      return 0.0, 0.0;
    }
    VrFallbackUnreachable(m, obs);
    FilterMapLength(LogPoint(m, obs), Periods(obs));
    a, b := Intercept(pts), Slope(pts);
    forall a', b' ensures BestLine(a', b', pts) <==> a' == a && b' == b {
      FittedLineIsOptimal(a', b', pts);
    }
  }

  lemma {:induction false} FilterMapLength<A, B>(f: A -> Option<B>, s: seq<A>)
    ensures |FilterMap(f, s)| <= |s|
    decreases |s|
  {
    if |s| > 0 {
      FilterMapLength(f, s[..|s| - 1]);
    }
  }

  /** The exponent lies between the least and the greatest elasticity between two periods, as far as the
      resource's interval reaches. */
  lemma AlphaBetweenElasticities(m: MathLib, rows: seq<Row>, key: ResourceKey, lo: real, hi: real)
    requires m.Lawful()
    ensures
      |LogPoints(m, Observations(rows, key))| >= 2
      && PairSlopesWithin(LogPoints(m, Observations(rows, key)), lo, hi) ==>
      var alpha := Alpha(m, rows, key);
      && (key == DiskBytes ==> (lo <= alpha || alpha == 1.4) && (alpha <= hi || alpha == 0.6))
      && (key == MemPeakBytes ==> (lo <= alpha || alpha == 0.8) && (alpha <= hi || alpha == 0.0))
      && (key == CpuCores ==> (lo <= alpha || alpha == 0.6) && (alpha <= hi || alpha == 0.0))
  {
    hide LogPoint, Covariation, PairSlopesWithin;
    var obs := Observations(rows, key);
    if |LogPoints(m, obs)| >= 2 && PairSlopesWithin(LogPoints(m, obs), lo, hi) {
      VrFallbackUnreachable(m, obs);
      FilterMapLength(LogPoint(m, obs), Periods(obs));
      SlopeBetweenPairSlopes(LogPoints(m, obs), lo, hi);
    }
  }

  lemma PeriodsPositive(rows: seq<Row>, key: ResourceKey)
    requires PositivePeriods(rows, key)
    ensures forall t :: t in Periods(Observations(rows, key)) ==> t > 0.0
  {
    var obs := Observations(rows, key);
    PeriodsNoDuplicates(obs);
    forall t | t in Periods(obs) ensures t > 0.0 {
      var o :| o in obs && o.period == t;
      ObservationsPositive(rows, key, o);
    }
  }

  /** A contributing row of every period that was observed. */
  lemma RowOfPeriod(rows: seq<Row>, key: ResourceKey, t: real) returns (r: Row)
    requires t in Periods(Observations(rows, key))
    ensures r in rows && KeyVal(r, key) > 0.0 && PeriodForKey(r, key) == t
  {
    hide FilterMap, Periods, KeyVal, PeriodForKey;
    var obs := Observations(rows, key);
    PeriodsNoDuplicates(obs);
    var o :| o in obs && o.period == t;
    FilterMapMembers(ObservationOf(key), rows, o);
    r :| r in rows && ObservationOf(key)(r) == Some(o);
  }

  lemma PeriodOfRow(rows: seq<Row>, key: ResourceKey, r: Row)
    requires r in rows && KeyVal(r, key) > 0.0
    ensures PeriodForKey(r, key) in Periods(Observations(rows, key))
  {
    hide FilterMap, Periods, KeyVal, PeriodForKey;
    var obs := Observations(rows, key);
    var o := Observation(PeriodForKey(r, key), KeyVal(r, key));
    assert ObservationOf(key)(r) == Some(o);
    FilterMapMembers(ObservationOf(key), rows, o);
    PeriodsNoDuplicates(obs);
  }

  /** Two contributing rows of different periods make two periods. */
  lemma TwoPeriods(rows: seq<Row>, key: ResourceKey, r: Row, r': Row)
    requires r in rows && r' in rows && KeyVal(r, key) > 0.0 && KeyVal(r', key) > 0.0
    requires PeriodForKey(r, key) != PeriodForKey(r', key)
    ensures |Periods(Observations(rows, key))| >= 2
  {
    hide KeyVal, PeriodForKey, Periods;
    PeriodOfRow(rows, key, r);
    PeriodOfRow(rows, key, r');
  }

  /** When every contributing row follows c * period^a, so does every median. */
  lemma MedianOfPowerLaw(m: MathLib, rows: seq<Row>, key: ResourceKey, c: real, a: real, t: real)
    requires forall r :: r in rows && KeyVal(r, key) > 0.0 ==> KeyVal(r, key) == c * m.pow(PeriodForKey(r, key), a)
    requires t in Periods(Observations(rows, key))
    ensures Median(Group(Observations(rows, key), t)) == c * m.pow(t, a)
  {
    hide Median, Group, Periods, FilterMap, KeyVal, PeriodForKey;
    var obs := Observations(rows, key);
    PeriodsNoDuplicates(obs);
    var o :| o in obs && o.period == t;
    GroupMembers(obs, t, o.value);
    var med := Median(Group(obs, t));
    SomeInGroup(obs, t, o.value);
    GroupMembers(obs, t, med);
    FilterMapMembers(ObservationOf(key), rows, Observation(t, med));
    var r :| r in rows && ObservationOf(key)(r) == Some(Observation(t, med));
  }

  lemma SomeInGroup(obs: seq<Observation>, t: real, v: real)
    requires v in Group(obs, t)
    ensures Median(Group(obs, t)) in Group(obs, t)
  {
    hide Median, Group;
    MedianMember(Group(obs, t));
  }

  lemma PowerLawOfRows(m: MathLib, rows: seq<Row>, key: ResourceKey, c: real, a: real, r: Row, r': Row)
    requires m.Lawful() && c > 0.0 && PositivePeriods(rows, key)
    requires forall s :: s in rows && KeyVal(s, key) > 0.0 ==> KeyVal(s, key) == c * m.pow(PeriodForKey(s, key), a)
    requires r in rows && r' in rows && KeyVal(r, key) > 0.0 && KeyVal(r', key) > 0.0
    requires PeriodForKey(r, key) != PeriodForKey(r', key)
    ensures key == DiskBytes ==> Nearest(Alpha(m, rows, key), a, 0.6, 1.4)
    ensures key == MemPeakBytes ==> Nearest(Alpha(m, rows, key), a, 0.0, 0.8)
    ensures key == CpuCores ==> Nearest(Alpha(m, rows, key), a, 0.0, 0.6)
  {
    hide KeyVal, PeriodForKey, Periods, Median, Group, Alpha, Observations, Nearest, MathLib.Lawful;
    TwoPeriods(rows, key, r, r');
    forall t | t in Periods(Observations(rows, key))
      ensures Median(Group(Observations(rows, key), t)) == c * m.pow(t, a)
    {
      MedianOfPowerLaw(m, rows, key, c, a, t);
    }
    PowerLawRecovered(m, rows, key, c, a);
  }

  /** CPU that follows c * retention^a over two or more retentions gives the exponent a, or the nearest in
      0..0.6. */
  lemma CpuPowerLaw(m: MathLib, rows: seq<Row>, c: real, a: real, r: Row, r': Row)
    requires m.Lawful() && c > 0.0
    requires forall s :: s in rows && s.cpuCores > 0.0 ==>
      s.retentionDays > 0.0 && s.cpuCores == c * m.pow(s.retentionDays, a)
    requires r in rows && r' in rows && r.cpuCores > 0.0 && r'.cpuCores > 0.0 && r.retentionDays != r'.retentionDays
    ensures Nearest(Alpha(m, rows, CpuCores), a, 0.0, 0.6)
  {
    hide Alpha, Nearest, MathLib.Lawful;
    PowerLawOfRows(m, rows, CpuCores, c, a, r, r');
  }

  /** Likewise for memory, in 0..0.8. */
  lemma MemoryPowerLaw(m: MathLib, rows: seq<Row>, c: real, a: real, r: Row, r': Row)
    requires m.Lawful() && c > 0.0
    requires forall s :: s in rows && s.memPeakBytes > 0.0 ==>
      s.retentionDays > 0.0 && s.memPeakBytes == c * m.pow(s.retentionDays, a)
    requires r in rows && r' in rows && r.memPeakBytes > 0.0 && r'.memPeakBytes > 0.0
    requires r.retentionDays != r'.retentionDays
    ensures Nearest(Alpha(m, rows, MemPeakBytes), a, 0.0, 0.8)
  {
    hide Alpha, Nearest, MathLib.Lawful;
    PowerLawOfRows(m, rows, MemPeakBytes, c, a, r, r');
  }

  /** Likewise for disk over the days the runs lasted, in 0.6..1.4. */
  lemma DiskPowerLaw(m: MathLib, rows: seq<Row>, c: real, a: real, r: Row, r': Row)
    requires m.Lawful() && c > 0.0
    requires forall s :: s in rows && s.diskBytes > 0.0 ==>
      s.durationSeconds > 0.0 && s.diskBytes == c * m.pow(s.durationSeconds / 86400.0, a)
    requires r in rows && r' in rows && r.diskBytes > 0.0 && r'.diskBytes > 0.0
    requires r.durationSeconds != r'.durationSeconds
    ensures Nearest(Alpha(m, rows, DiskBytes), a, 0.6, 1.4)
  {
    hide Alpha, Nearest, MathLib.Lawful;
    PowerLawOfRows(m, rows, DiskBytes, c, a, r, r');
  }

  lemma OnePeriod(rows: seq<Row>, key: ResourceKey)
    requires forall a, b :: a in rows && b in rows && KeyVal(a, key) > 0.0 && KeyVal(b, key) > 0.0 ==>
      PeriodForKey(a, key) == PeriodForKey(b, key)
    ensures |Periods(Observations(rows, key))| < 2
  {
    hide KeyVal, PeriodForKey, Periods, Observations;
    var periods := Periods(Observations(rows, key));
    if |periods| >= 2 {
      PeriodsNoDuplicates(Observations(rows, key));
      var a := RowOfPeriod(rows, key, periods[0]);
      var b := RowOfPeriod(rows, key, periods[1]);
      assert false;
    }
  }

  /** Without two different periods the exponent is 0.15 for CPU, 0.25 for memory and 1 for disk. */
  lemma ExponentOfOnePeriod(m: MathLib, rows: seq<Row>)
    ensures (forall a, b :: a in rows && b in rows && a.cpuCores > 0.0 && b.cpuCores > 0.0 ==>
      a.retentionDays == b.retentionDays) ==> Alpha(m, rows, CpuCores) == 0.15
    ensures (forall a, b :: a in rows && b in rows && a.memPeakBytes > 0.0 && b.memPeakBytes > 0.0 ==>
      a.retentionDays == b.retentionDays) ==> Alpha(m, rows, MemPeakBytes) == 0.25
    ensures (forall a, b :: a in rows && b in rows && a.diskBytes > 0.0 && b.diskBytes > 0.0 ==>
      a.durationSeconds == b.durationSeconds > 0.0) ==> Alpha(m, rows, DiskBytes) == 1.0
  {
    hide Periods, Observations, AlphaOfPoints;
    if forall a, b :: a in rows && b in rows && a.cpuCores > 0.0 && b.cpuCores > 0.0 ==>
      a.retentionDays == b.retentionDays
    {
      OnePeriod(rows, CpuCores);
    }
    if forall a, b :: a in rows && b in rows && a.memPeakBytes > 0.0 && b.memPeakBytes > 0.0 ==>
      a.retentionDays == b.retentionDays
    {
      OnePeriod(rows, MemPeakBytes);
    }
    if forall a, b :: a in rows && b in rows && a.diskBytes > 0.0 && b.diskBytes > 0.0 ==>
      a.durationSeconds == b.durationSeconds > 0.0
    {
      OnePeriod(rows, DiskBytes);
    }
  }

  lemma OnePositivePeriod(m: MathLib, rows: seq<Row>, key: ResourceKey)
    requires m.Lawful()
    requires forall a, b | a in rows && b in rows && KeyVal(a, key) > 0.0 && KeyVal(b, key) > 0.0 ::
      PeriodForKey(a, key) > 0.0 && PeriodForKey(b, key) > 0.0 ==> PeriodForKey(a, key) == PeriodForKey(b, key)
    ensures |LogPoints(m, Observations(rows, key))| < 2
  {
    hide KeyVal, PeriodForKey, Periods, Observations, Median, Group, FilterMap, Var, MathLib.Lawful;
    var obs := Observations(rows, key);
    var pts := LogPoints(m, obs);
    if |pts| >= 2 {
      VrFallbackUnreachable(m, obs);
      var t := PeriodOfPoint(m, obs, pts[0]);
      var t' := PeriodOfPoint(m, obs, pts[1]);
      var a := RowOfPeriod(rows, key, t);
      var b := RowOfPeriod(rows, key, t');
      assert false;
    }
  }

  lemma PeriodOfPoint(m: MathLib, obs: seq<Observation>, p: Point) returns (t: real)
    requires p in LogPoints(m, obs)
    ensures t in Periods(obs) && t > 0.0 && p.x == m.log(t)
  {
    hide FilterMap, Periods, Median, Group;
    FilterMapMembers(LogPoint(m, obs), Periods(obs), p);
    t :| t in Periods(obs) && LogPoint(m, obs)(t) == Some(p);
  }

  /** With different retentions of which no two are positive, no line can be fitted: the exponent is 0.2 for CPU
      and memory, and 1 for disk. */
  lemma ExponentUnfitted(m: MathLib, rows: seq<Row>, r: Row, r': Row)
    requires m.Lawful() && r in rows && r' in rows && r.retentionDays != r'.retentionDays
    requires forall a, b :: a in rows && b in rows && a.retentionDays > 0.0 && b.retentionDays > 0.0 ==>
      a.retentionDays == b.retentionDays
    ensures r.cpuCores > 0.0 && r'.cpuCores > 0.0 ==> Alpha(m, rows, CpuCores) == 0.2
    ensures r.memPeakBytes > 0.0 && r'.memPeakBytes > 0.0 ==> Alpha(m, rows, MemPeakBytes) == 0.2
    ensures (r.diskBytes > 0.0 && r'.diskBytes > 0.0 && forall a :: a in rows ==> a.durationSeconds <= 0.0) ==>
      Alpha(m, rows, DiskBytes) == 1.0
  {
    hide Periods, Observations, LogPoints, Var, MathLib.Lawful;
    if r.cpuCores > 0.0 && r'.cpuCores > 0.0 {
      TwoPeriods(rows, CpuCores, r, r');
      OnePositivePeriod(m, rows, CpuCores);
    }
    if r.memPeakBytes > 0.0 && r'.memPeakBytes > 0.0 {
      TwoPeriods(rows, MemPeakBytes, r, r');
      OnePositivePeriod(m, rows, MemPeakBytes);
    }
    if r.diskBytes > 0.0 && r'.diskBytes > 0.0 && forall a :: a in rows ==> a.durationSeconds <= 0.0 {
      TwoPeriods(rows, DiskBytes, r, r');
      OnePositivePeriod(m, rows, DiskBytes);
    }
  }

  // ---------------------------------------------------------------------------------------
  // Retention factors out

  lemma QuotientChain(a: real, b: real, c: real)
    requires a > 0.0 && b > 0.0 && c > 0.0
    ensures a / c == (a / b) * (b / c) && a / c > 0.0
  {
    var q, r := a / b, b / c;
    assert q * b == a && r * c == b;
    assert (q * r) * c == a;
  }

  lemma RescaleRetargets(m: MathLib, base: real, period: real, t1: real, t2: real, alpha: real)
    requires m.Lawful() && period > 0.0 && t1 > 0.0 && t2 > 0.0
    ensures Rescale(m, base, t2, period, alpha) == m.pow(t2 / t1, alpha) * Rescale(m, base, t1, period, alpha)
  {
    hide MathLib.Lawful;
    QuotientChain(t2, t1, period);
    QuotientChain(t2, period, t1);
    QuotientChain(t1, t2, period);
    m.PowProduct(t2 / t1, t1 / period, t2 / period, alpha);
    var c, d := m.pow(t2 / t1, alpha), m.pow(t1 / period, alpha);
    assert base * (c * d) == c * (base * d);
  }

  lemma ScaledPointValue(c: real, x: real, y: real, z: real)
    requires z == c * y
    ensures ScaleY(c)(Point(x, y)) == Point(x, z)
  {
  }

  lemma PointRetargets(m: MathLib, r: Row, key: ResourceKey, t1: real, t2: real, alpha: real)
    requires m.Lawful() && t1 > 0.0 && t2 > 0.0
    requires KeyVal(r, key) > 0.0 ==> PeriodForKey(r, key) > 0.0
    ensures ScaledPoint(m, key, t2, alpha)(r)
      == MapOption(ScaleY(m.pow(t2 / t1, alpha)), ScaledPoint(m, key, t1, alpha)(r))
  {
    hide MathLib.Lawful, Rescale, KeyVal, PeriodForKey, ScaleY;
    if KeyVal(r, key) > 0.0 {
      RescaleRetargets(m, KeyVal(r, key), PeriodForKey(r, key), t1, t2, alpha);
      ScaledPointValue(m.pow(t2 / t1, alpha), r.loadValue,
        Rescale(m, KeyVal(r, key), t1, PeriodForKey(r, key), alpha),
        Rescale(m, KeyVal(r, key), t2, PeriodForKey(r, key), alpha));
    }
  }

  lemma PointsRetarget(m: MathLib, rows: seq<Row>, key: ResourceKey, t1: real, t2: real)
    requires m.Lawful() && PositivePeriods(rows, key) && t1 > 0.0 && t2 > 0.0
    ensures ScaledPoints(m, rows, key, t2)
      == Map(ScaleY(m.pow(t2 / t1, Alpha(m, rows, key))), ScaledPoints(m, rows, key, t1))
  {
    hide Alpha;
    var alpha := Alpha(m, rows, key);
    var f, g := ScaledPoint(m, key, t2, alpha), ScaledPoint(m, key, t1, alpha);
    var h, k := (r: Row) => r, ScaleY(m.pow(t2 / t1, alpha));
    forall r | r in rows ensures f(h(r)) == MapOption(k, g(r)) {
      PointRetargets(m, r, key, t1, t2, alpha);
    }
    FilterMapTransform(f, g, h, k, rows);
    assert Map(h, rows) == rows;
  }

  lemma MaxScale(c: real, v: real, z: real)
    requires c >= 0.0 && z == c * v
    ensures Max(0.0, z) == c * Max(0.0, v)
  {
    if v >= 0.0 {
      assert c * v >= 0.0;
    } else {
      assert c * -v >= 0.0;
    }
  }

  /** Multiplying all values by c multiplies the clamped curve by c, at every load. */
  lemma ClampedCurveScale(c: real, points: seq<Point>, load: real)
    requires c >= 0.0
    ensures Max(0.0, Curve(Sorted(X, Map(ScaleY(c), points)), load)) == c * Max(0.0, Curve(Sorted(X, points), load))
  {
    hide Curve, Sorted, ScaleY;
    SortedScale(c, points);
    CurveScale(c, Sorted(X, points), load);
    MaxScale(c, Curve(Sorted(X, points), load), Curve(Sorted(X, Map(ScaleY(c), points)), load));
  }

  lemma ScaledSorting(c: real, s: seq<Point>, points: seq<Point>)
    requires IsSorting(X, s, points)
    ensures IsSorting(X, Map(ScaleY(c), s), Map(ScaleY(c), points))
  {
    var t := Map(ScaleY(c), s);
    forall i, j | 0 <= i < j < |t| ensures X(t[i]) <= X(t[j]) {
      assert X(s[i]) <= X(s[j]);
    }
    MapPermutation(ScaleY(c), s, points);
  }

  lemma ScaledBack(c: real, d: real, points: seq<Point>)
    requires d * c == 1.0
    ensures Map(ScaleY(d), Map(ScaleY(c), points)) == points
  {
    forall p: Point ensures ScaleY(d)(ScaleY(c)(p)) == p {
      assert d * (c * p.y) == (d * c) * p.y;
    }
  }

  /** Points scaled by c make possible what was possible, times c. */
  lemma PossibleScaled(
      m: MathLib, rows: seq<Row>, rows': seq<Row>, load: real, t: real, t': real, key: ResourceKey,
      c: real, u: real, v: real)
    requires c > 0.0 && ScaledPoints(m, rows', key, t') == Map(ScaleY(c), ScaledPoints(m, rows, key, t))
    requires Possible(m, rows, load, t, key, u) && v == c * u
    ensures Possible(m, rows', load, t', key, v)
  {
    hide Curve, ScaledPoints, ScaleY, Ordered, Permutation, Max;
    var s :| IsSorting(X, s, ScaledPoints(m, rows, key, t)) && u == Max(0.0, Curve(s, load));
    ScaledSorting(c, s, ScaledPoints(m, rows, key, t));
    CurveScale(c, s, load);
    MaxScale(c, Curve(s, load), Curve(Map(ScaleY(c), s), load));
  }

  lemma PossibleScaledIff(
      m: MathLib, rows: seq<Row>, rows': seq<Row>, load: real, t: real, t': real, key: ResourceKey, c: real)
    requires c > 0.0 && ScaledPoints(m, rows', key, t') == Map(ScaleY(c), ScaledPoints(m, rows, key, t))
    ensures forall u, v :: v == c * u ==>
      (Possible(m, rows, load, t, key, u) <==> Possible(m, rows', load, t', key, v))
  {
    hide ScaledPoints, Possible, ScaleY;
    var d := 1.0 / c;
    assert d * c == 1.0;
    ScaledBack(c, d, ScaledPoints(m, rows, key, t));
    forall u, v | v == c * u
      ensures Possible(m, rows, load, t, key, u) <==> Possible(m, rows', load, t', key, v)
    {
      if Possible(m, rows, load, t, key, u) {
        PossibleScaled(m, rows, rows', load, t, t', key, c, u, v);
      }
      if Possible(m, rows', load, t', key, v) {
        assert d * (c * u) == (d * c) * u;
        PossibleScaled(m, rows', rows, load, t', t, key, d, v, u);
      }
    }
  }

  /** Changing the target period multiplies the estimate by (t2 / t1) to the exponent, at every load and for
      every outcome of the sort. */
  lemma RetentionFactorsOut(
      m: MathLib, rows: seq<Row>, key: ResourceKey, load: real, t1: real, t2: real)
    requires m.Lawful() && PositivePeriods(rows, key) && t1 > 0.0 && t2 > 0.0
    ensures m.pow(t2 / t1, Alpha(m, rows, key)) > 0.0
    ensures Estimate(m, rows, load, t2, key)
      == m.pow(t2 / t1, Alpha(m, rows, key)) * Estimate(m, rows, load, t1, key)
    ensures forall u, v :: v == m.pow(t2 / t1, Alpha(m, rows, key)) * u ==>
      (Possible(m, rows, load, t1, key, u) <==> Possible(m, rows, load, t2, key, v))
  {
    hide Alpha, Curve, ScaledPoints, Sorted, ScaleY, MathLib.Lawful, Possible;
    var c := m.pow(t2 / t1, Alpha(m, rows, key));
    QuotientChain(t2, t1, t1);
    m.LogOfPower(t2 / t1, Alpha(m, rows, key));
    PointsRetarget(m, rows, key, t1, t2);
    ClampedCurveScale(c, ScaledPoints(m, rows, key, t1), load);
    PossibleScaledIff(m, rows, rows, load, t1, t2, key, c);
  }

  lemma EstimateNonnegative(m: MathLib, rows: seq<Row>, load: real, target: real, key: ResourceKey)
    ensures Estimate(m, rows, load, target, key) >= 0.0
  {
  }

  lemma QuotientAtLeastOne(a: real, b: real)
    requires 0.0 < a <= b
    ensures b / a >= 1.0
  {
    assert (b / a) * a == b;
  }

  lemma GrowByFactor(c: real, e: real, e': real)
    requires c >= 1.0 && e >= 0.0 && e' == c * e
    ensures e <= e'
  {
    assert (c - 1.0) * e >= 0.0;
  }

  lemma PossibleNonnegative(m: MathLib, rows: seq<Row>, load: real, target: real, key: ResourceKey, u: real)
    requires Possible(m, rows, load, target, key, u)
    ensures u >= 0.0
  {
  }

  /** The factor by which a longer period multiplies the estimate is at least one. */
  lemma RetentionFactor(m: MathLib, rows: seq<Row>, key: ResourceKey, t1: real, t2: real)
    requires m.Lawful() && 0.0 < t1 <= t2
    ensures m.pow(t2 / t1, Alpha(m, rows, key)) >= 1.0
  {
    hide Alpha, MathLib.Lawful;
    var alpha := Alpha(m, rows, key);
    AlphaRange(m, rows, key);
    QuotientAtLeastOne(t1, t2);
    m.PowMonotone(1.0, t2 / t1, alpha);
    m.PowOne(alpha);
  }

  /** Keeping data longer is never estimated to need less: every answer for the shorter period is matched by
      one at least as large for the longer period, and conversely. */
  lemma EstimateGrowsWithRetention(
      m: MathLib, rows: seq<Row>, key: ResourceKey, load: real, t1: real, t2: real)
    requires m.Lawful() && PositivePeriods(rows, key) && 0.0 < t1 <= t2
    ensures Estimate(m, rows, load, t1, key) <= Estimate(m, rows, load, t2, key)
    ensures forall u :: Possible(m, rows, load, t1, key, u) ==>
      exists v :: Possible(m, rows, load, t2, key, v) && u <= v
    ensures forall v :: Possible(m, rows, load, t2, key, v) ==>
      exists u :: Possible(m, rows, load, t1, key, u) && u <= v
  {
    hide Alpha, Estimate, Possible, MathLib.Lawful;
    var c := m.pow(t2 / t1, Alpha(m, rows, key));
    RetentionFactorsOut(m, rows, key, load, t1, t2);
    RetentionFactor(m, rows, key, t1, t2);
    EstimateNonnegative(m, rows, load, t1, key);
    GrowByFactor(c, Estimate(m, rows, load, t1, key), Estimate(m, rows, load, t2, key));
    forall u | Possible(m, rows, load, t1, key, u) ensures exists v :: Possible(m, rows, load, t2, key, v) && u <= v {
      var v := c * u;
      assert Possible(m, rows, load, t2, key, v);
      PossibleNonnegative(m, rows, load, t1, key, u);
      GrowByFactor(c, u, v);
    }
    forall v | Possible(m, rows, load, t2, key, v) ensures exists u :: Possible(m, rows, load, t1, key, u) && u <= v {
      var u := v / c;
      assert c * u == v;
      PossibleNonnegative(m, rows, load, t1, key, u);
      GrowByFactor(c, u, v);
    }
  }

  /** With one common retention, CPU scales by the power 0.15 of the ratio of periods and memory by its power
      0.25. */
  lemma CommonRetentionScales(m: MathLib, rows: seq<Row>, load: real, t1: real, t2: real)
    requires m.Lawful() && t1 > 0.0 && t2 > 0.0
    requires forall a, b :: a in rows && b in rows ==> a.retentionDays == b.retentionDays > 0.0
    ensures Estimate(m, rows, load, t2, CpuCores) == m.pow(t2 / t1, 0.15) * Estimate(m, rows, load, t1, CpuCores)
    ensures Estimate(m, rows, load, t2, MemPeakBytes)
      == m.pow(t2 / t1, 0.25) * Estimate(m, rows, load, t1, MemPeakBytes)
    ensures forall u, v :: v == m.pow(t2 / t1, 0.15) * u ==>
      (Possible(m, rows, load, t1, CpuCores, u) <==> Possible(m, rows, load, t2, CpuCores, v))
    ensures forall u, v :: v == m.pow(t2 / t1, 0.25) * u ==>
      (Possible(m, rows, load, t1, MemPeakBytes, u) <==> Possible(m, rows, load, t2, MemPeakBytes, v))
  {
    hide Alpha, Estimate, Possible, MathLib.Lawful;
    ExponentOfOnePeriod(m, rows);
    RetentionFactorsOut(m, rows, CpuCores, load, t1, t2);
    RetentionFactorsOut(m, rows, MemPeakBytes, load, t1, t2);
  }

  /** When all runs lasted equally long, disk is estimated in proportion to the target period. */
  lemma DiskProportional(m: MathLib, rows: seq<Row>, load: real, t1: real, t2: real)
    requires m.Lawful() && PositivePeriods(rows, DiskBytes) && t1 > 0.0 && t2 > 0.0
    requires |Periods(Observations(rows, DiskBytes))| == 1
    ensures Estimate(m, rows, load, t2, DiskBytes) == t2 / t1 * Estimate(m, rows, load, t1, DiskBytes)
    ensures forall u, v :: v == t2 / t1 * u ==>
      (Possible(m, rows, load, t1, DiskBytes, u) <==> Possible(m, rows, load, t2, DiskBytes, v))
  {
    hide Periods, Estimate, Possible, MathLib.Lawful;
    RetentionFactorsOut(m, rows, DiskBytes, load, t1, t2);
    QuotientChain(t2, t2, t1);
    m.PowIdentity(t2 / t1);
  }

  // ---------------------------------------------------------------------------------------
  // Measurements are reproduced

  lemma ScaledLoad(m: MathLib, rows: seq<Row>, key: ResourceKey, target: real, alpha: real, p: Point)
    requires p in FilterMap(ScaledPoint(m, key, target, alpha), rows)
    ensures exists r :: r in rows && r.loadValue == p.x
  {
    FilterMapMembers(ScaledPoint(m, key, target, alpha), rows, p);
  }

  lemma {:induction false} ScaledDistinct(m: MathLib, rows: seq<Row>, key: ResourceKey, target: real, alpha: real)
    requires DistinctLoads(rows)
    ensures DistinctX(FilterMap(ScaledPoint(m, key, target, alpha), rows))
    decreases |rows|
  {
    if |rows| > 0 {
      var init, last := rows[..|rows| - 1], rows[|rows| - 1];
      ScaledDistinct(m, init, key, target, alpha);
      var pts := FilterMap(ScaledPoint(m, key, target, alpha), init);
      forall i | 0 <= i < |pts| ensures pts[i].x != last.loadValue {
        ScaledLoad(m, init, key, target, alpha, pts[i]);
      }
    }
  }

  lemma DistinctXPermutation(s: seq<Point>, t: seq<Point>)
    requires Permutation(s, t) && DistinctX(t)
    ensures DistinctX(s)
  {
    PermutationLength(s, t);
    DistinctConsistent(t);
    ConsistentPermutation(X, s, t);
    NoDuplicatesPreserved(s, t);
    forall i, j | 0 <= i < j < |s| ensures s[i].x != s[j].x {
      assert X(s[i]) != X(s[j]);
    }
  }

  lemma DistinctConsistent(t: seq<Point>)
    requires DistinctX(t)
    ensures Consistent(X, t)
  {
    forall i, j | 0 <= i < |t| && 0 <= j < |t| && X(t[i]) == X(t[j]) ensures t[i] == t[j] {
      assert i == j;
    }
  }

  /** With distinct loads the sorted points have strictly increasing loads. */
  lemma SortedIncreasing(pts: seq<Point>)
    requires DistinctX(pts)
    ensures Increasing(Sorted(X, pts)) && Permutation(Sorted(X, pts), pts) && Consistent(X, pts)
  {
    SortedSorts(X, pts);
    DistinctXPermutation(Sorted(X, pts), pts);
    OrderedDistinct(Sorted(X, pts));
    DistinctConsistent(pts);
  }

  lemma OwnRescale(m: MathLib, base: real, t: real, alpha: real)
    requires m.Lawful() && t > 0.0
    ensures Rescale(m, base, t, t, alpha) == base
  {
    hide MathLib.Lawful;
    assert t / t == 1.0;
    m.PowOne(alpha);
  }

  lemma OwnPoint(m: MathLib, r: Row, key: ResourceKey, alpha: real)
    requires m.Lawful() && KeyVal(r, key) > 0.0 && PeriodForKey(r, key) > 0.0
    ensures ScaledPoint(m, key, PeriodForKey(r, key), alpha)(r) == Some(Point(r.loadValue, KeyVal(r, key)))
  {
    hide Rescale, KeyVal, PeriodForKey, MathLib.Lawful;
    OwnRescale(m, KeyVal(r, key), PeriodForKey(r, key), alpha);
  }

  /** Estimating a measured row at its own load and period returns the measured value, whatever
      periods the other rows have. */
  lemma MeasurementReproduced(m: MathLib, rows: seq<Row>, key: ResourceKey, r: Row)
    requires m.Lawful() && DistinctLoads(rows) && PositivePeriods(rows, key)
    requires r in rows && KeyVal(r, key) > 0.0
    ensures Estimate(m, rows, r.loadValue, PeriodForKey(r, key), key) == KeyVal(r, key)
  {
    var t, alpha := PeriodForKey(r, key), Alpha(m, rows, key);
    var pts := ScaledPoints(m, rows, key, t);
    var p := Point(r.loadValue, KeyVal(r, key));
    OwnPoint(m, r, key, alpha);
    FilterMapMembers(ScaledPoint(m, key, t, alpha), rows, p);
    assert p in pts;
    ScaledDistinct(m, rows, key, t, alpha);
    SortedIncreasing(pts);
    PermutationLength(Sorted(X, pts), pts);
    var k :| 0 <= k < |Sorted(X, pts)| && Sorted(X, pts)[k] == p;
    CurveThroughKnots(Sorted(X, pts), k);
  }

  // ---------------------------------------------------------------------------------------
  // Row order

  lemma PermutedPeriods(obs: seq<Observation>, obs': seq<Observation>)
    requires Permutation(obs, obs')
    ensures Permutation(Periods(obs), Periods(obs'))
  {
    PeriodsNoDuplicates(obs);
    PeriodsNoDuplicates(obs');
    PermutationLength(obs, obs');
    forall p ensures p in Periods(obs) <==> p in Periods(obs') {
      if o :| o in obs && o.period == p { assert o in obs'; }
      if o :| o in obs' && o.period == p { assert o in obs; }
    }
    NoDuplicatesPermutation(Periods(obs), Periods(obs'));
  }

  lemma PermutedMedian(vals: seq<real>, vals': seq<real>)
    requires Permutation(vals, vals')
    ensures Median(vals) == Median(vals')
  {
    PermutationLength(vals, vals');
    SortedPermutation(Identity, vals, vals');
  }

  lemma {:induction false} FilterMapSame<A, B>(f: A -> Option<B>, g: A -> Option<B>, s: seq<A>)
    requires forall a :: a in s ==> f(a) == g(a)
    ensures FilterMap(f, s) == FilterMap(g, s)
    decreases |s|
  {
    if |s| > 0 {
      assert s[|s| - 1] in s;
      FilterMapSame(f, g, s[..|s| - 1]);
    }
  }

  lemma PermutedLogPoints(m: MathLib, obs: seq<Observation>, obs': seq<Observation>)
    requires Permutation(obs, obs')
    ensures Permutation(LogPoints(m, obs), LogPoints(m, obs'))
  {
    PermutedPeriods(obs, obs');
    FilterMapPermutation(LogPoint(m, obs), Periods(obs), Periods(obs'));
    forall p | p in Periods(obs') ensures LogPoint(m, obs)(p) == LogPoint(m, obs')(p) {
      FilterMapPermutation(ValueAt(p), obs, obs');
      PermutedMedian(Group(obs, p), Group(obs', p));
    }
    FilterMapSame(LogPoint(m, obs), LogPoint(m, obs'), Periods(obs'));
  }

  /** The exponent does not depend on the order of the rows. */
  lemma AlphaOrderIndependent(m: MathLib, rows: seq<Row>, rows': seq<Row>, key: ResourceKey)
    requires Permutation(rows, rows')
    ensures Alpha(m, rows, key) == Alpha(m, rows', key)
  {
    hide FilterMap, Periods, Covariation;
    var obs, obs' := Observations(rows, key), Observations(rows', key);
    FilterMapPermutation(ObservationOf(key), rows, rows');
    PermutedPeriods(obs, obs');
    PermutationLength(Periods(obs), Periods(obs'));
    PermutedLogPoints(m, obs, obs');
    PermutationLength(LogPoints(m, obs), LogPoints(m, obs'));
    if |LogPoints(m, obs)| >= 2 {
      OrderInvariant(LogPoints(m, obs), LogPoints(m, obs'));
    }
  }

  /** Nor does the set of possible outcomes. */
  lemma PossibleOrderIndependent(
      m: MathLib, rows: seq<Row>, rows': seq<Row>, load: real, target: real, key: ResourceKey, u: real)
    requires Permutation(rows, rows') && Possible(m, rows, load, target, key, u)
    ensures Possible(m, rows', load, target, key, u)
  {
    hide FilterMap, Alpha, Curve;
    AlphaOrderIndependent(m, rows, rows', key);
    FilterMapPermutation(ScaledPoint(m, key, target, Alpha(m, rows, key)), rows, rows');
    var s :| IsSorting(X, s, ScaledPoints(m, rows, key, target)) && u == Max(0.0, Curve(s, load));
    assert IsSorting(X, s, ScaledPoints(m, rows', key, target));
  }

  /** Nor does the estimate, when no load carries two different rescaled values. */
  lemma EstimateOrderIndependent(
      m: MathLib, rows: seq<Row>, rows': seq<Row>, key: ResourceKey, load: real, target: real)
    requires Permutation(rows, rows') && Consistent(X, ScaledPoints(m, rows, key, target))
    ensures Estimate(m, rows, load, target, key) == Estimate(m, rows', load, target, key)
  {
    hide FilterMap, Alpha;
    AlphaOrderIndependent(m, rows, rows', key);
    FilterMapPermutation(ScaledPoint(m, key, target, Alpha(m, rows, key)), rows, rows');
    SortedPermutation(X, ScaledPoints(m, rows', key, target), ScaledPoints(m, rows, key, target));
  }

  lemma RescalePositive(m: MathLib, base: real, target: real, period: real, alpha: real)
    requires m.Lawful() && base > 0.0 && target > 0.0 && period > 0.0
    ensures Rescale(m, base, target, period, alpha) > 0.0
  {
    hide MathLib.Lawful;
    QuotientChain(target, period, period);
    m.LogOfPower(target / period, alpha);
    PositiveProduct(base, m.pow(target / period, alpha), Rescale(m, base, target, period, alpha));
  }

  lemma ScaledPointsPositive(m: MathLib, rows: seq<Row>, key: ResourceKey, target: real, p: Point)
    requires m.Lawful() && PositivePeriods(rows, key) && target > 0.0
    requires p in ScaledPoints(m, rows, key, target)
    ensures p.y > 0.0
  {
    hide FilterMap, Alpha, Rescale, MathLib.Lawful, KeyVal, PeriodForKey;
    var alpha := Alpha(m, rows, key);
    FilterMapMembers(ScaledPoint(m, key, target, alpha), rows, p);
    var r :| r in rows && ScaledPoint(m, key, target, alpha)(r) == Some(p);
    RescalePositive(m, KeyVal(r, key), target, PeriodForKey(r, key), alpha);
  }

  /** Contributing rows with equal loads agree once each is brought to the other's period. The target
      plays no part. */
  ghost predicate LoadsAgree(m: MathLib, rows: seq<Row>, key: ResourceKey) {
    forall a, b ::
      a in rows && b in rows && KeyVal(a, key) > 0.0 && KeyVal(b, key) > 0.0 && a.loadValue == b.loadValue ==>
      SameStrength(m, a, b, key, Alpha(m, rows, key))
  }

  ghost predicate SameStrength(m: MathLib, a: Row, b: Row, key: ResourceKey, alpha: real) {
    KeyVal(a, key) * m.pow(PeriodForKey(b, key), alpha) == KeyVal(b, key) * m.pow(PeriodForKey(a, key), alpha)
  }

  /** Brought to a common period, the value of a is at most that of b. */
  ghost predicate NoStronger(m: MathLib, a: Row, b: Row, key: ResourceKey, alpha: real) {
    KeyVal(a, key) * m.pow(PeriodForKey(b, key), alpha) <= KeyVal(b, key) * m.pow(PeriodForKey(a, key), alpha)
  }

  /** Contributing rows at higher loads are no weaker, and those at equal loads agree. */
  ghost predicate StrengthGrows(m: MathLib, rows: seq<Row>, key: ResourceKey) {
    forall a, b ::
      a in rows && b in rows && KeyVal(a, key) > 0.0 && KeyVal(b, key) > 0.0 && a.loadValue <= b.loadValue ==>
      NoStronger(m, a, b, key, Alpha(m, rows, key))
  }

  lemma RescaleTimesPower(m: MathLib, base: real, target: real, period: real, alpha: real)
    requires m.Lawful() && target > 0.0 && period > 0.0
    ensures Rescale(m, base, target, period, alpha) * m.pow(period, alpha) == base * m.pow(target, alpha)
    ensures m.pow(period, alpha) > 0.0 && m.pow(target, alpha) > 0.0
  {
    hide MathLib.Lawful;
    QuotientChain(target, period, period);
    assert (target / period) * period == target;
    m.PowProduct(target / period, period, target, alpha);
    m.LogOfPower(period, alpha);
    m.LogOfPower(target, alpha);
    var c, d := m.pow(target / period, alpha), m.pow(period, alpha);
    assert base * c * d == base * (c * d);
  }

  lemma CrossMultiply(u: real, v: real, p: real, q: real, a: real, b: real, t: real)
    requires p > 0.0 && q > 0.0 && t > 0.0 && u * p == a * t && v * q == b * t
    ensures u == v <==> a * q == b * p
    ensures u <= v <==> a * q <= b * p
  {
    assert u * p * q == a * t * q && v * q * p == b * t * p;
    assert (v - u) * (p * q) == (b * p - a * q) * t;
    SignOfProduct(v - u, p * q, (v - u) * (p * q));
    SignOfProduct(b * p - a * q, t, (b * p - a * q) * t);
  }

  lemma SignOfProduct(a: real, b: real, z: real)
    requires z == a * b && b > 0.0
    ensures z == 0.0 <==> a == 0.0
    ensures z >= 0.0 <==> a >= 0.0
  {
  }

  /** Two rows rescale to the same value, whatever the target, exactly when they have the same strength. */
  lemma RescaleAgree(m: MathLib, a: Row, b: Row, key: ResourceKey, target: real, alpha: real)
    requires m.Lawful() && target > 0.0 && PeriodForKey(a, key) > 0.0 && PeriodForKey(b, key) > 0.0
    ensures Rescale(m, KeyVal(a, key), target, PeriodForKey(a, key), alpha)
         == Rescale(m, KeyVal(b, key), target, PeriodForKey(b, key), alpha)
      <==> SameStrength(m, a, b, key, alpha)
    ensures Rescale(m, KeyVal(a, key), target, PeriodForKey(a, key), alpha)
         <= Rescale(m, KeyVal(b, key), target, PeriodForKey(b, key), alpha)
      <==> NoStronger(m, a, b, key, alpha)
  {
    hide MathLib.Lawful, Rescale, KeyVal, PeriodForKey;
    RescaleTimesPower(m, KeyVal(a, key), target, PeriodForKey(a, key), alpha);
    RescaleTimesPower(m, KeyVal(b, key), target, PeriodForKey(b, key), alpha);
    CrossMultiply(
      Rescale(m, KeyVal(a, key), target, PeriodForKey(a, key), alpha),
      Rescale(m, KeyVal(b, key), target, PeriodForKey(b, key), alpha),
      m.pow(PeriodForKey(a, key), alpha), m.pow(PeriodForKey(b, key), alpha),
      KeyVal(a, key), KeyVal(b, key), m.pow(target, alpha));
  }

  /** The rescaled points are those of the contributing rows. */
  lemma PointOfRow(m: MathLib, rows: seq<Row>, key: ResourceKey, target: real, r: Row)
    requires PositivePeriods(rows, key) && r in rows && KeyVal(r, key) > 0.0
    ensures Point(r.loadValue, Rescale(m, KeyVal(r, key), target, PeriodForKey(r, key), Alpha(m, rows, key)))
      in ScaledPoints(m, rows, key, target)
  {
    hide FilterMap, Alpha, Rescale, KeyVal, PeriodForKey;
    var alpha := Alpha(m, rows, key);
    var p := Point(r.loadValue, Rescale(m, KeyVal(r, key), target, PeriodForKey(r, key), alpha));
    assert ScaledPoint(m, key, target, alpha)(r) == Some(p);
    FilterMapMembers(ScaledPoint(m, key, target, alpha), rows, p);
  }

  lemma RowOfPoint(m: MathLib, rows: seq<Row>, key: ResourceKey, target: real, p: Point) returns (r: Row)
    requires p in ScaledPoints(m, rows, key, target)
    ensures r in rows && KeyVal(r, key) > 0.0 && PeriodForKey(r, key) != 0.0
    ensures p == Point(r.loadValue, Rescale(m, KeyVal(r, key), target, PeriodForKey(r, key), Alpha(m, rows, key)))
  {
    hide FilterMap, Alpha, Rescale, KeyVal, PeriodForKey;
    var alpha := Alpha(m, rows, key);
    FilterMapMembers(ScaledPoint(m, key, target, alpha), rows, p);
    r :| r in rows && ScaledPoint(m, key, target, alpha)(r) == Some(p);
  }

  lemma ConsistentIff(m: MathLib, rows: seq<Row>, key: ResourceKey, target: real)
    requires m.Lawful() && PositivePeriods(rows, key) && target > 0.0
    ensures Consistent(X, ScaledPoints(m, rows, key, target)) <==> LoadsAgree(m, rows, key)
  {
    hide ScaledPoints, Rescale, Alpha, KeyVal, PeriodForKey, SameStrength, MathLib.Lawful;
    var points, alpha := ScaledPoints(m, rows, key, target), Alpha(m, rows, key);
    if LoadsAgree(m, rows, key) {
      forall i, j | 0 <= i < |points| && 0 <= j < |points| && X(points[i]) == X(points[j])
        ensures points[i] == points[j]
      {
        var a := RowOfPoint(m, rows, key, target, points[i]);
        var b := RowOfPoint(m, rows, key, target, points[j]);
        RescaleAgree(m, a, b, key, target, alpha);
        assert SameStrength(m, a, b, key, alpha);
      }
    }
    if Consistent(X, points) {
      forall a, b | a in rows && b in rows && KeyVal(a, key) > 0.0 && KeyVal(b, key) > 0.0 && a.loadValue == b.loadValue
        ensures SameStrength(m, a, b, key, alpha)
      {
        PointOfRow(m, rows, key, target, a);
        PointOfRow(m, rows, key, target, b);
        RescaleAgree(m, a, b, key, target, alpha);
      }
    }
  }

  /** A determined estimate is Estimate. */
  lemma PossibleDetermined(m: MathLib, rows: seq<Row>, load: real, target: real, key: ResourceKey, r: real)
    requires Possible(m, rows, load, target, key, r) && Consistent(X, ScaledPoints(m, rows, key, target))
    ensures r == Estimate(m, rows, load, target, key)
  {
    hide Curve, ScaledPoints;
    var points := ScaledPoints(m, rows, key, target);
    var s :| IsSorting(X, s, points) && r == Max(0.0, Curve(s, load));
    SortingUnique(X, s, points);
  }

  /** Estimate itself is possible, so there always is a possible value. */
  lemma EstimatePossible(m: MathLib, rows: seq<Row>, load: real, target: real, key: ResourceKey)
    ensures Possible(m, rows, load, target, key, Estimate(m, rows, load, target, key))
  {
    hide Curve, ScaledPoints;
    SortedSorts(X, ScaledPoints(m, rows, key, target));
  }

  /** The estimates are determined at every load exactly when the rows with equal loads agree: Go's sort
      leaves the order of equal loads open. */
  lemma EstimateDeterminedIff(m: MathLib, rows: seq<Row>, key: ResourceKey, target: real)
    requires m.Lawful() && PositivePeriods(rows, key) && target > 0.0
    ensures
      (forall load, u, v ::
        Possible(m, rows, load, target, key, u) && Possible(m, rows, load, target, key, v) ==> u == v)
      <==> LoadsAgree(m, rows, key)
  {
    hide Curve, ScaledPoints, LoadsAgree, Estimate, MathLib.Lawful;
    var points := ScaledPoints(m, rows, key, target);
    ConsistentIff(m, rows, key, target);
    if Consistent(X, points) {
      forall load, u, v | Possible(m, rows, load, target, key, u) && Possible(m, rows, load, target, key, v)
        ensures u == v
      {
        PossibleDetermined(m, rows, load, target, key, u);
        PossibleDetermined(m, rows, load, target, key, v);
      }
    } else {
      var i, j :| 0 <= i < |points| && 0 <= j < |points| && X(points[i]) == X(points[j]) && points[i] != points[j];
      var u, v := TwoEstimates(m, rows, key, target, points[i], points[j]);
    }
  }

  /** Two points at one load make two different estimates possible there. */
  lemma TwoEstimates(m: MathLib, rows: seq<Row>, key: ResourceKey, target: real, a: Point, b: Point)
    returns (u: real, v: real)
    requires m.Lawful() && PositivePeriods(rows, key) && target > 0.0
    requires a in ScaledPoints(m, rows, key, target) && b in ScaledPoints(m, rows, key, target)
    requires a.x == b.x && a.y != b.y
    ensures Possible(m, rows, a.x, target, key, u) && Possible(m, rows, a.x, target, key, v) && u != v
  {
    hide Curve, ScaledPoints, MathLib.Lawful;
    var points := ScaledPoints(m, rows, key, target);
    var s, t, i, j, x := DifferingOutcomes(points, a, b);
    ScaledPointsPositive(m, rows, key, target, points[i]);
    ScaledPointsPositive(m, rows, key, target, points[j]);
    u, v := Max(0.0, Curve(s, x)), Max(0.0, Curve(t, x));
  }

  /** A measured row is reproduced by every outcome of the sort exactly when all contributing rows at its
      load rescale to its value. */
  lemma ReproducedIff(m: MathLib, rows: seq<Row>, key: ResourceKey, r: Row)
    requires m.Lawful() && PositivePeriods(rows, key) && r in rows && KeyVal(r, key) > 0.0
    ensures
      (forall u :: Possible(m, rows, r.loadValue, PeriodForKey(r, key), key, u) ==> u == KeyVal(r, key))
      <==> (forall b :: b in rows && KeyVal(b, key) > 0.0 && b.loadValue == r.loadValue ==>
        SameStrength(m, r, b, key, Alpha(m, rows, key)))
  {
    hide Possible, Alpha, SameStrength, Rescale, KeyVal, PeriodForKey, MathLib.Lawful, ScaledPoints;
    var t, alpha := PeriodForKey(r, key), Alpha(m, rows, key);
    if forall b ::
      b in rows && KeyVal(b, key) > 0.0 && b.loadValue == r.loadValue ==> SameStrength(m, r, b, key, alpha)
    {
      forall u | Possible(m, rows, r.loadValue, t, key, u) ensures u == KeyVal(r, key) {
        ReproducedByAll(m, rows, key, r, u);
      }
    }
    if forall u :: Possible(m, rows, r.loadValue, t, key, u) ==> u == KeyVal(r, key) {
      forall b | b in rows && KeyVal(b, key) > 0.0 && b.loadValue == r.loadValue
        ensures SameStrength(m, r, b, key, alpha)
      {
        PointOfRow(m, rows, key, t, r);
        PointOfRow(m, rows, key, t, b);
        RescaleAgree(m, r, b, key, t, alpha);
        var p := Point(r.loadValue, Rescale(m, KeyVal(r, key), t, t, alpha));
        var q := Point(b.loadValue, Rescale(m, KeyVal(b, key), t, PeriodForKey(b, key), alpha));
        if p.y != q.y {
          var u, v := TwoEstimates(m, rows, key, t, p, q);
        }
      }
    }
  }

  /** The value is the only possible answer. */
  ghost predicate OnlyAnswer(m: MathLib, rows: seq<Row>, load: real, target: real, key: ResourceKey, v: real) {
    forall u :: Possible(m, rows, load, target, key, u) <==> u == v
  }

  lemma OwnAnswer(m: MathLib, rows: seq<Row>, key: ResourceKey, r: Row)
    requires m.Lawful() && DistinctLoads(rows) && PositivePeriods(rows, key) && r in rows && KeyVal(r, key) > 0.0
    ensures OnlyAnswer(m, rows, r.loadValue, PeriodForKey(r, key), key, KeyVal(r, key))
  {
    hide Possible, Alpha, KeyVal, PeriodForKey, Estimate, MathLib.Lawful;
    EstimatePossible(m, rows, r.loadValue, PeriodForKey(r, key), key);
    ReproducedIff(m, rows, key, r);
    forall b | b in rows && KeyVal(b, key) > 0.0 && b.loadValue == r.loadValue
      ensures SameStrength(m, r, b, key, Alpha(m, rows, key))
    {
      var i :| 0 <= i < |rows| && rows[i] == b;
      var j :| 0 <= j < |rows| && rows[j] == r;
      assert i == j;
    }
  }

  /** With distinct loads and positive retentions the fields of every row are reproduced, each at its own
      period: CPU and memory at the retention, disk at the days the run lasted. */
  lemma FieldsReproduced(m: MathLib, rows: seq<Row>, r: Row)
    requires m.Lawful() && DistinctLoads(rows) && r in rows && forall s :: s in rows ==> s.retentionDays > 0.0
    ensures r.cpuCores > 0.0 ==> OnlyAnswer(m, rows, r.loadValue, r.retentionDays, CpuCores, r.cpuCores)
    ensures r.memPeakBytes > 0.0 ==> OnlyAnswer(m, rows, r.loadValue, r.retentionDays, MemPeakBytes, r.memPeakBytes)
    ensures r.diskBytes > 0.0 && r.durationSeconds > 0.0 ==>
      OnlyAnswer(m, rows, r.loadValue, r.durationSeconds / 86400.0, DiskBytes, r.diskBytes)
    ensures r.diskBytes > 0.0 && r.durationSeconds <= 0.0 ==>
      OnlyAnswer(m, rows, r.loadValue, r.retentionDays, DiskBytes, r.diskBytes)
  {
    hide OnlyAnswer, DistinctLoads, MathLib.Lawful;
    if r.cpuCores > 0.0 {
      OwnAnswer(m, rows, CpuCores, r);
    }
    if r.memPeakBytes > 0.0 {
      OwnAnswer(m, rows, MemPeakBytes, r);
    }
    if r.diskBytes > 0.0 {
      OwnAnswer(m, rows, DiskBytes, r);
    }
  }

  lemma ReproducedByAll(m: MathLib, rows: seq<Row>, key: ResourceKey, r: Row, u: real)
    requires m.Lawful() && PositivePeriods(rows, key) && r in rows && KeyVal(r, key) > 0.0
    requires forall b :: b in rows && KeyVal(b, key) > 0.0 && b.loadValue == r.loadValue ==>
      SameStrength(m, r, b, key, Alpha(m, rows, key))
    requires Possible(m, rows, r.loadValue, PeriodForKey(r, key), key, u)
    ensures u == KeyVal(r, key)
  {
    hide Alpha, SameStrength, Rescale, KeyVal, PeriodForKey, MathLib.Lawful, ScaledPoints, Curve, KnotIndex;
    var t, alpha := PeriodForKey(r, key), Alpha(m, rows, key);
    var points := ScaledPoints(m, rows, key, t);
    var s :| IsSorting(X, s, points) && u == Max(0.0, Curve(s, r.loadValue));
    PermutationLength(s, points);
    var own := Point(r.loadValue, Rescale(m, KeyVal(r, key), t, t, alpha));
    PointOfRow(m, rows, key, t, r);
    assert own in s;
    var k :| 0 <= k < |s| && s[k] == own;
    CurveAtMeasuredLoad(s, k);
    var knot := s[KnotIndex(s, r.loadValue)];
    assert knot in points;
    var b := RowOfPoint(m, rows, key, t, knot);
    RescaleAgree(m, r, b, key, t, alpha);
    OwnRescale(m, KeyVal(r, key), t, alpha);
  }

  /** No answer for a load exceeds an answer for a higher load. */
  ghost predicate AnswersGrow(m: MathLib, rows: seq<Row>, key: ResourceKey, target: real) {
    forall x, y, u, v ::
      x <= y && Possible(m, rows, x, target, key, u) && Possible(m, rows, y, target, key, v) ==> u <= v
  }

  /** More load is never estimated to need less exactly when the measurements, brought to a common period,
      never fall with load. */
  lemma EstimateGrowsWithLoadIff(m: MathLib, rows: seq<Row>, key: ResourceKey, target: real)
    requires m.Lawful() && PositivePeriods(rows, key) && target > 0.0
    ensures AnswersGrow(m, rows, key, target) <==> StrengthGrows(m, rows, key)
  {
    hide Possible, AnswersGrow, StrengthGrows, MathLib.Lawful;
    if AnswersGrow(m, rows, key, target) {
      GrowthNeeded(m, rows, key, target);
    }
    if StrengthGrows(m, rows, key) {
      GrowthSuffices(m, rows, key, target);
    }
  }

  lemma GrowthSuffices(m: MathLib, rows: seq<Row>, key: ResourceKey, target: real)
    requires m.Lawful() && PositivePeriods(rows, key) && target > 0.0 && StrengthGrows(m, rows, key)
    ensures AnswersGrow(m, rows, key, target)
  {
    hide Possible, Alpha, Rescale, KeyVal, PeriodForKey, SameStrength, NoStronger, ScaledPoints, Curve, Sorted;
    hide MathLib.Lawful;
    var points, alpha := ScaledPoints(m, rows, key, target), Alpha(m, rows, key);
    forall p, q | p in points && q in points && p.x <= q.x ensures p.y <= q.y {
      var a := RowOfPoint(m, rows, key, target, p);
      var b := RowOfPoint(m, rows, key, target, q);
      RescaleAgree(m, a, b, key, target, alpha);
      assert NoStronger(m, a, b, key, alpha);
    }
    var s := Sorted(X, points);
    SortedSorts(X, points);
    PermutationLength(s, points);
    PointsGrow(s, points);
    forall x, y, u, v | x <= y && Possible(m, rows, x, target, key, u) && Possible(m, rows, y, target, key, v)
      ensures u <= v
    {
      PossibleDetermined(m, rows, x, target, key, u);
      PossibleDetermined(m, rows, y, target, key, v);
      assert Curve(s, x) <= Curve(s, y);
    }
  }

  lemma PointsGrow(s: seq<Point>, points: seq<Point>)
    requires IsSorting(X, s, points) && forall p :: p in s <==> p in points
    requires forall p, q :: p in points && q in points && p.x <= q.x ==> p.y <= q.y
    ensures Consistent(X, points) && NondecreasingCurve(s)
  {
    forall i, j | 0 <= i < |points| && 0 <= j < |points| && X(points[i]) == X(points[j])
      ensures points[i] == points[j]
    {
      assert points[i] in points && points[j] in points;
    }
    ConsistentPermutation(X, s, points);
    forall i | 0 <= i < |s| - 1 ensures s[i].y <= s[i + 1].y {
      assert X(s[i]) <= X(s[i + 1]);
      assert s[i] in points && s[i + 1] in points;
    }
    MonotoneIff(s);
  }

  /** When the rows with equal loads agree, the one possible answer at a contributing row's load is its
      rescaled value. */
  lemma EstimateAtRow(m: MathLib, rows: seq<Row>, key: ResourceKey, target: real, r: Row)
    requires m.Lawful() && LoadsAgree(m, rows, key) && PositivePeriods(rows, key) && target > 0.0
    requires r in rows && KeyVal(r, key) > 0.0
    ensures Estimate(m, rows, r.loadValue, target, key)
      == Rescale(m, KeyVal(r, key), target, PeriodForKey(r, key), Alpha(m, rows, key)) > 0.0
  {
    hide ScaledPoints, Alpha, Rescale, KeyVal, PeriodForKey, Curve, Sorted, LoadsAgree, MathLib.Lawful;
    var points := ScaledPoints(m, rows, key, target);
    PointOfRow(m, rows, key, target, r);
    RescalePositive(m, KeyVal(r, key), target, PeriodForKey(r, key), Alpha(m, rows, key));
    ConsistentIff(m, rows, key, target);
    SortedSorts(X, points);
    var s := Sorted(X, points);
    PermutationLength(s, points);
    ConsistentPermutation(X, s, points);
    var k :| 0 <= k < |s| && s[k].x == r.loadValue
      && s[k].y == Rescale(m, KeyVal(r, key), target, PeriodForKey(r, key), Alpha(m, rows, key));
    CurveAtKnot(s, k);
  }

  lemma GrowthNeeded(m: MathLib, rows: seq<Row>, key: ResourceKey, target: real)
    requires m.Lawful() && PositivePeriods(rows, key) && target > 0.0 && AnswersGrow(m, rows, key, target)
    ensures StrengthGrows(m, rows, key)
  {
    hide Possible, Alpha, Rescale, KeyVal, PeriodForKey, LoadsAgree, NoStronger, Estimate, MathLib.Lawful;
    forall load, u, v | Possible(m, rows, load, target, key, u) && Possible(m, rows, load, target, key, v)
      ensures u == v
    {
      assert load <= load;
    }
    EstimateDeterminedIff(m, rows, key, target);
    forall a, b |
      a in rows && b in rows && KeyVal(a, key) > 0.0 && KeyVal(b, key) > 0.0 && a.loadValue <= b.loadValue
      ensures NoStronger(m, a, b, key, Alpha(m, rows, key))
    {
      EstimateAtRow(m, rows, key, target, a);
      EstimateAtRow(m, rows, key, target, b);
      EstimatePossible(m, rows, a.loadValue, target, key);
      EstimatePossible(m, rows, b.loadValue, target, key);
      RescaleAgree(m, a, b, key, target, Alpha(m, rows, key));
    }
  }

  // ---------------------------------------------------------------------------------------
  // Units

  function Times(k: real, v: real): real { k * v }

  /** The row with every measured value multiplied by k. */
  function ScaleValues(k: real): Row -> Row {
    (r: Row) => r.(
      cpuCores := Times(k, r.cpuCores),
      memPeakBytes := Times(k, r.memPeakBytes),
      diskBytes := Times(k, r.diskBytes))
  }

  /** The row with duration and retention multiplied by k. */
  function ScalePeriods(k: real): Row -> Row {
    (r: Row) => r.(retentionDays := Times(k, r.retentionDays), durationSeconds := Times(k, r.durationSeconds))
  }

  function ScaleBy(k: real): real -> real {
    (v: real) => Times(k, v)
  }

  function ScaleObservation(kp: real, kv: real): Observation -> Observation {
    (o: Observation) => Observation(Times(kp, o.period), Times(kv, o.value))
  }

  lemma TimesSign(k: real, v: real)
    requires k > 0.0
    ensures Times(k, v) <= 0.0 <==> v <= 0.0
    ensures Times(k, v) == 0.0 <==> v == 0.0
  {
    if v > 0.0 { assert k * v > 0.0; }
    if v < 0.0 { assert k * -v > 0.0; }
  }

  lemma TimesOrder(k: real, a: real, b: real)
    requires k > 0.0
    ensures Times(k, a) == Times(k, b) <==> a == b
    ensures Times(k, a) <= Times(k, b) <==> a <= b
  {
    TimesSign(k, a - b);
    assert k * (a - b) == k * a - k * b;
  }

  lemma PeriodScales(k: real, r: Row, key: ResourceKey)
    requires k > 0.0
    ensures PeriodForKey(ScalePeriods(k)(r), key) == Times(k, PeriodForKey(r, key))
    ensures KeyVal(ScalePeriods(k)(r), key) == KeyVal(r, key)
  {
    TimesSign(k, r.durationSeconds);
    assert (k * r.durationSeconds) / 86400.0 == k * (r.durationSeconds / 86400.0);
  }

  lemma ValueScales(k: real, r: Row, key: ResourceKey)
    requires k > 0.0
    ensures KeyVal(ScaleValues(k)(r), key) == Times(k, KeyVal(r, key))
    ensures PeriodForKey(ScaleValues(k)(r), key) == PeriodForKey(r, key)
  {
  }

  lemma {:induction false} PeriodsScale(kp: real, kv: real, obs: seq<Observation>)
    requires kp > 0.0
    ensures Periods(Map(ScaleObservation(kp, kv), obs)) == Map(ScaleBy(kp), Periods(obs))
    decreases |obs|
  {
    hide Times;
    if |obs| > 0 {
      var h, g := ScaleObservation(kp, kv), ScaleBy(kp);
      var init, last := obs[..|obs| - 1], obs[|obs| - 1];
      assert Map(h, obs)[..|obs| - 1] == Map(h, init);
      PeriodsScale(kp, kv, init);
      ScaledMember(kp, Periods(init), last.period);
    }
  }

  lemma ScaledMember(k: real, s: seq<real>, v: real)
    requires k > 0.0
    ensures Times(k, v) in Map(ScaleBy(k), s) <==> v in s
  {
    hide Times;
    var t := Map(ScaleBy(k), s);
    if i :| 0 <= i < |s| && t[i] == Times(k, v) {
      TimesOrder(k, s[i], v);
    }
    if i :| 0 <= i < |s| && s[i] == v {
      assert t[i] == Times(k, v);
    }
  }

  lemma ValueAtScales(kp: real, kv: real, period: real, o: Observation)
    requires kp > 0.0
    ensures ValueAt(Times(kp, period))(ScaleObservation(kp, kv)(o)) == MapOption(ScaleBy(kv), ValueAt(period)(o))
  {
    hide Times;
    TimesOrder(kp, o.period, period);
  }

  lemma GroupScales(kp: real, kv: real, obs: seq<Observation>, period: real)
    requires kp > 0.0
    ensures Group(Map(ScaleObservation(kp, kv), obs), Times(kp, period)) == Map(ScaleBy(kv), Group(obs, period))
  {
    hide Times, FilterMap, ValueAt, ScaleObservation, ScaleBy;
    var f, g, h, k := ValueAt(Times(kp, period)), ValueAt(period), ScaleObservation(kp, kv), ScaleBy(kv);
    forall o | o in obs ensures f(h(o)) == MapOption(k, g(o)) {
      ValueAtScales(kp, kv, period, o);
    }
    FilterMapTransform(f, g, h, k, obs);
  }

  lemma ScaleByKeepsOrder(k: real)
    requires k > 0.0
    ensures KeepsOrder(Identity, Identity, ScaleBy(k))
  {
    hide Times;
    var h := ScaleBy(k);
    forall a, b {:trigger h(a), h(b)} ensures Identity(a) <= Identity(b) <==> Identity(h(a)) <= Identity(h(b)) {
      TimesOrder(k, a, b);
    }
  }

  lemma MedianScales(kv: real, vals: seq<real>)
    requires kv > 0.0
    ensures Median(Map(ScaleBy(kv), vals)) == Times(kv, Median(vals))
  {
    hide Times, Sorted, KeepsOrder;
    ScaleByKeepsOrder(kv);
    SortedMap(Identity, Identity, ScaleBy(kv), vals);
    TimesSign(kv, 0.0);
  }

  lemma LogPointScales(m: MathLib, kp: real, kv: real, obs: seq<Observation>, period: real)
    requires m.Lawful() && kp > 0.0 && kv > 0.0
    ensures LogPoint(m, Map(ScaleObservation(kp, kv), obs))(Times(kp, period))
      == MapOption(Shift(m.log(kp), m.log(kv)), LogPoint(m, obs)(period))
  {
    hide Median, Group, MathLib.Lawful;
    var med := Median(Group(obs, period));
    GroupScales(kp, kv, obs, period);
    MedianScales(kv, Group(obs, period));
    TimesSign(kp, period);
    TimesSign(kv, med);
    if period > 0.0 && med > 0.0 {
      m.LogProduct(kp, period, Times(kp, period));
      m.LogProduct(kv, med, Times(kv, med));
    }
    hide Times;
  }

  lemma LogPointsScale(m: MathLib, kp: real, kv: real, obs: seq<Observation>)
    requires m.Lawful() && kp > 0.0 && kv > 0.0
    ensures LogPoints(m, Map(ScaleObservation(kp, kv), obs)) == Map(Shift(m.log(kp), m.log(kv)), LogPoints(m, obs))
  {
    hide Times, Periods, FilterMap, LogPoint, Shift, MathLib.Lawful;
    var obs' := Map(ScaleObservation(kp, kv), obs);
    var f, g, h, k := LogPoint(m, obs'), LogPoint(m, obs), ScaleBy(kp), Shift(m.log(kp), m.log(kv));
    PeriodsScale(kp, kv, obs);
    forall p | p in Periods(obs) ensures f(h(p)) == MapOption(k, g(p)) {
      LogPointScales(m, kp, kv, obs, p);
    }
    FilterMapTransform(f, g, h, k, Periods(obs));
  }

  /** New units for periods and values shift the log-log points and leave the exponent alone. */
  lemma AlphaUnitFree(m: MathLib, kp: real, kv: real, obs: seq<Observation>, key: ResourceKey)
    requires m.Lawful() && kp > 0.0 && kv > 0.0
    ensures AlphaOfObservations(m, Map(ScaleObservation(kp, kv), obs), key) == AlphaOfObservations(m, obs, key)
  {
    hide Periods, Covariation, LogPoints, MathLib.Lawful;
    PeriodsScale(kp, kv, obs);
    LogPointsScale(m, kp, kv, obs);
    if |LogPoints(m, obs)| >= 2 {
      ShiftInvariant(m.log(kp), m.log(kv), LogPoints(m, obs));
    }
  }

  /** h multiplies the resource's value by kv and its period by kp, and keeps the load. */
  ghost predicate Rescales(h: Row -> Row, key: ResourceKey, kp: real, kv: real) {
    forall r ::
      && KeyVal(h(r), key) == Times(kv, KeyVal(r, key))
      && PeriodForKey(h(r), key) == Times(kp, PeriodForKey(r, key))
      && h(r).loadValue == r.loadValue
  }

  lemma AlphaOfScaledRows(
      m: MathLib, rows: seq<Row>, key: ResourceKey, h: Row -> Row, kp: real, kv: real)
    requires m.Lawful() && kp > 0.0 && kv > 0.0 && Rescales(h, key, kp, kv)
    ensures Alpha(m, Map(h, rows), key) == Alpha(m, rows, key)
  {
    hide AlphaOfObservations, Times, KeyVal, PeriodForKey, FilterMap, MathLib.Lawful;
    var f, k := ObservationOf(key), ScaleObservation(kp, kv);
    forall r | r in rows ensures f(h(r)) == MapOption(k, f(r)) {
      TimesSign(kv, KeyVal(r, key));
    }
    FilterMapTransform(f, f, h, k, rows);
    AlphaUnitFree(m, kp, kv, Observations(rows, key), key);
  }

  lemma SameQuotient(k: real, a: real, b: real)
    requires k > 0.0 && b != 0.0
    ensures Times(k, b) != 0.0 && Times(k, a) / Times(k, b) == a / b
  {
    TimesSign(k, b);
    var q := a / b;
    assert q * b == a;
    assert q * (k * b) == k * a;
  }

  lemma RescaleInUnits(m: MathLib, base: real, target: real, period: real, alpha: real, kp: real, kv: real)
    requires kp > 0.0 && period != 0.0
    ensures Times(kp, period) != 0.0
    ensures Rescale(m, Times(kv, base), Times(kp, target), Times(kp, period), alpha)
      == kv * Rescale(m, base, target, period, alpha)
  {
    SameQuotient(kp, target, period);
    var c := m.pow(target / period, alpha);
    assert (kv * base) * c == kv * (base * c);
  }

  lemma PointOfScaledRow(
      m: MathLib, r: Row, h: Row -> Row, key: ResourceKey, target: real, alpha: real, kp: real, kv: real)
    requires kp > 0.0 && kv > 0.0 && Rescales(h, key, kp, kv)
    ensures ScaledPoint(m, key, Times(kp, target), alpha)(h(r))
      == MapOption(ScaleY(kv), ScaledPoint(m, key, target, alpha)(r))
  {
    hide Times, Rescale, KeyVal, PeriodForKey, ScaleY;
    var base, period := KeyVal(r, key), PeriodForKey(r, key);
    TimesSign(kv, base);
    TimesSign(kp, period);
    if base > 0.0 && period != 0.0 {
      RescaleInUnits(m, base, target, period, alpha, kp, kv);
      ScaledPointValue(kv, r.loadValue, Rescale(m, base, target, period, alpha),
        Rescale(m, Times(kv, base), Times(kp, target), Times(kp, period), alpha));
    }
  }

  lemma PointsOfScaledRows(
      m: MathLib, rows: seq<Row>, key: ResourceKey, target: real, h: Row -> Row, kp: real, kv: real)
    requires m.Lawful() && kp > 0.0 && kv > 0.0 && Rescales(h, key, kp, kv)
    ensures ScaledPoints(m, Map(h, rows), key, Times(kp, target))
      == Map(ScaleY(kv), ScaledPoints(m, rows, key, target))
  {
    hide Alpha, FilterMap, ScaledPoint, Rescales, Times;
    AlphaOfScaledRows(m, rows, key, h, kp, kv);
    var alpha := Alpha(m, rows, key);
    var f, g, k := ScaledPoint(m, key, Times(kp, target), alpha), ScaledPoint(m, key, target, alpha), ScaleY(kv);
    forall r | r in rows ensures f(h(r)) == MapOption(k, g(r)) {
      PointOfScaledRow(m, r, h, key, target, alpha, kp, kv);
    }
    FilterMapTransform(f, g, h, k, rows);
  }

  lemma ScaledRowsPositive(rows: seq<Row>, key: ResourceKey, h: Row -> Row, kp: real, kv: real)
    requires kp > 0.0 && kv > 0.0 && Rescales(h, key, kp, kv) && PositivePeriods(rows, key)
    ensures PositivePeriods(Map(h, rows), key)
  {
    hide Times, KeyVal, PeriodForKey;
    forall r' | r' in Map(h, rows) && KeyVal(r', key) > 0.0 ensures PeriodForKey(r', key) > 0.0 {
      var i :| 0 <= i < |rows| && r' == h(rows[i]);
      TimesSign(kv, KeyVal(rows[i], key));
      assert rows[i] in rows;
      TimesSign(kp, PeriodForKey(rows[i], key));
    }
  }

  lemma PossibleOfScaledRows(
      m: MathLib, rows: seq<Row>, key: ResourceKey, load: real, target: real, h: Row -> Row, kp: real, kv: real)
    requires m.Lawful() && kp > 0.0 && kv > 0.0 && Rescales(h, key, kp, kv)
    ensures forall u, v :: v == kv * u ==>
      (Possible(m, rows, load, target, key, u) <==> Possible(m, Map(h, rows), load, Times(kp, target), key, v))
  {
    hide ScaledPoints, Rescales, Times, MathLib.Lawful, Possible;
    PointsOfScaledRows(m, rows, key, target, h, kp, kv);
    PossibleScaledIff(m, rows, Map(h, rows), load, target, Times(kp, target), key, kv);
  }

  /** The estimate in new units for periods and values. */
  lemma EstimateOfScaledRows(
      m: MathLib, rows: seq<Row>, key: ResourceKey, load: real, target: real, h: Row -> Row, kp: real, kv: real)
    requires m.Lawful() && kp > 0.0 && kv > 0.0 && PositivePeriods(rows, key) && Rescales(h, key, kp, kv)
    ensures PositivePeriods(Map(h, rows), key)
    ensures Estimate(m, Map(h, rows), load, Times(kp, target), key) == kv * Estimate(m, rows, load, target, key)
    ensures forall u, v :: v == kv * u ==>
      (Possible(m, rows, load, target, key, u) <==> Possible(m, Map(h, rows), load, Times(kp, target), key, v))
  {
    hide Curve, Sorted, ScaledPoints, Rescales, Times, PositivePeriods, MathLib.Lawful, Possible;
    PossibleOfScaledRows(m, rows, key, load, target, h, kp, kv);
    ScaledRowsPositive(rows, key, h, kp, kv);
    PointsOfScaledRows(m, rows, key, target, h, kp, kv);
    ClampedCurveScale(kv, ScaledPoints(m, rows, key, target), load);
  }

  lemma ValuesRescale(k: real, key: ResourceKey)
    requires k > 0.0
    ensures Rescales(ScaleValues(k), key, 1.0, k)
  {
    hide KeyVal, PeriodForKey;
    forall r ensures
      && KeyVal(ScaleValues(k)(r), key) == Times(k, KeyVal(r, key))
      && PeriodForKey(ScaleValues(k)(r), key) == Times(1.0, PeriodForKey(r, key))
    {
      ValueScales(k, r, key);
    }
  }

  lemma PeriodsRescale(k: real, key: ResourceKey)
    requires k > 0.0
    ensures Rescales(ScalePeriods(k), key, k, 1.0)
  {
    hide KeyVal, PeriodForKey;
    forall r ensures
      && KeyVal(ScalePeriods(k)(r), key) == Times(1.0, KeyVal(r, key))
      && PeriodForKey(ScalePeriods(k)(r), key) == Times(k, PeriodForKey(r, key))
    {
      PeriodScales(k, r, key);
    }
  }

  /** Measuring values in other units leaves the exponent alone and rescales the estimate. */
  lemma ValueUnits(m: MathLib, rows: seq<Row>, key: ResourceKey, load: real, target: real, k: real)
    requires m.Lawful() && k > 0.0 && PositivePeriods(rows, key)
    ensures Alpha(m, Map(ScaleValues(k), rows), key) == Alpha(m, rows, key)
    ensures PositivePeriods(Map(ScaleValues(k), rows), key)
    ensures Estimate(m, Map(ScaleValues(k), rows), load, target, key) == k * Estimate(m, rows, load, target, key)
    ensures forall u, v :: v == k * u ==>
      (Possible(m, rows, load, target, key, u) <==> Possible(m, Map(ScaleValues(k), rows), load, target, key, v))
  {
    hide Alpha, Estimate, Possible, Rescales, PositivePeriods, MathLib.Lawful;
    ValuesRescale(k, key);
    assert Times(1.0, target) == target;
    hide Times;
    AlphaOfScaledRows(m, rows, key, ScaleValues(k), 1.0, k);
    EstimateOfScaledRows(m, rows, key, load, target, ScaleValues(k), 1.0, k);
  }

  /** Measuring time in other units, target included, changes nothing. */
  lemma TimeUnits(m: MathLib, rows: seq<Row>, key: ResourceKey, load: real, target: real, k: real)
    requires m.Lawful() && k > 0.0 && PositivePeriods(rows, key)
    ensures Alpha(m, Map(ScalePeriods(k), rows), key) == Alpha(m, rows, key)
    ensures PositivePeriods(Map(ScalePeriods(k), rows), key)
    ensures Estimate(m, Map(ScalePeriods(k), rows), load, k * target, key) == Estimate(m, rows, load, target, key)
    ensures forall u ::
      Possible(m, rows, load, target, key, u) <==> Possible(m, Map(ScalePeriods(k), rows), load, k * target, key, u)
  {
    hide Alpha, Estimate, Possible, Rescales, PositivePeriods, MathLib.Lawful;
    PeriodsRescale(k, key);
    assert Times(k, target) == k * target;
    hide Times;
    AlphaOfScaledRows(m, rows, key, ScalePeriods(k), k, 1.0);
    EstimateOfScaledRows(m, rows, key, load, target, ScalePeriods(k), k, 1.0);
  }
}
