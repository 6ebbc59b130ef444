/** Error bands and monthly cost: `BuildReport` of obs-advisor/server/capacitymodel/model.go. */
module Report {
  import opened Collections
  import opened LeastSquares
  import opened Interpolation
  import opened PowerLaw
  import opened CapacityModel
  import opened CapacityTheorems
  import opened Holdout

  datatype EstimateInput = EstimateInput(
    instrument: string,
    workloadType: string,
    targetLoad: real,
    targetRetentionDays: real,
    errorBudget: real,
    priceRam: real,
    priceCpu: real,
    priceDisk: real)

  datatype Cost = Cost(ram: real, cpu: real, disk: real, total: real, totalMin: real, totalMax: real)

  datatype CapacityReport = CapacityReport(
    estimate: Estimates, holdout: Errors, rangeMin: Estimates, rangeMax: Estimates, cost: Option<Cost>)

  function Matching(input: EstimateInput): Row -> Option<Row> {
    (r: Row) => if r.instrument == input.instrument && r.workloadType == input.workloadType then Some(r) else None
  }

  /** Every resource of e multiplied by c. */
  function Scaled(e: Estimates, c: real): Estimates {
    Estimates(e.cpuCores * c, e.memPeakBytes * c, e.diskBytes * c)
  }

  function Price(e: Estimates, input: EstimateInput): real {
    e.memPeakBytes / GIB * input.priceRam + e.cpuCores * input.priceCpu + e.diskBytes / GIB * input.priceDisk
  }

  function Allocate(m: MathLib, rows: seq<Row>, input: EstimateInput): Estimates {
    Estimates(
      Estimate(m, rows, input.targetLoad, input.targetRetentionDays, CpuCores),
      Estimate(m, rows, input.targetLoad, input.targetRetentionDays, MemPeakBytes),
      Estimate(m, rows, input.targetLoad, input.targetRetentionDays, DiskBytes))
  }

  /** An allocation the code may report: a possible outcome for each resource. */
  ghost predicate PossibleAllocation(m: MathLib, rows: seq<Row>, input: EstimateInput, e: Estimates) {
    && Possible(m, rows, input.targetLoad, input.targetRetentionDays, CpuCores, e.cpuCores)
    && Possible(m, rows, input.targetLoad, input.targetRetentionDays, MemPeakBytes, e.memPeakBytes)
    && Possible(m, rows, input.targetLoad, input.targetRetentionDays, DiskBytes, e.diskBytes)
  }

  method Select(rows: seq<Row>, input: EstimateInput) returns (subset: seq<Row>)
    ensures subset == FilterMap(Matching(input), rows)
  {
    subset := [];
    for i := 0 to |rows|
      invariant subset == FilterMap(Matching(input), rows[..i])
    {
      assert rows[..i + 1] == rows[..i] + [rows[i]];
      FilterMapStep(Matching(input), rows[..i], rows[i]);
      if rows[i].instrument == input.instrument && rows[i].workloadType == input.workloadType {
        subset := subset + [rows[i]];
      }
    }
    assert rows[..|rows|] == rows;
  }

  /** The lines of a cost: bytes are charged by the GiB, and the total is their sum. */
  ghost predicate Itemised(c: Cost, e: Estimates, input: EstimateInput) {
    && c.ram * 1073741824.0 == e.memPeakBytes * input.priceRam
    && c.cpu == e.cpuCores * input.priceCpu
    && c.disk * 1073741824.0 == e.diskBytes * input.priceDisk
    && c.total == c.ram + c.cpu + c.disk
  }

  method PriceOut(e: Estimates, lo: Estimates, hi: Estimates, input: EstimateInput) returns (cost: Option<Cost>)
    ensures cost.Some? <==> input.priceRam > 0.0 || input.priceCpu > 0.0 || input.priceDisk > 0.0
    ensures cost.Some? ==> Itemised(cost.value, e, input)
    ensures cost.Some? ==>
      && cost.value.total == Price(e, input)
      && cost.value.totalMin == Price(lo, input)
      && cost.value.totalMax == Price(hi, input)
  {
    if input.priceRam > 0.0 || input.priceCpu > 0.0 || input.priceDisk > 0.0 {
      var ram := e.memPeakBytes / GIB * input.priceRam;
      var cpu := e.cpuCores * input.priceCpu;
      var disk := e.diskBytes / GIB * input.priceDisk;
      cost := Some(Cost(ram, cpu, disk, ram + cpu + disk, Price(lo, input), Price(hi, input)));
    } else {
      cost := None;
    }
  }

  lemma DistinctAllocation(m: MathLib, rows: seq<Row>, input: EstimateInput, e: Estimates)
    requires PossibleAllocation(m, rows, input, e)
    ensures DistinctLoads(rows) ==> e == Allocate(m, rows, input)
  {
    hide Possible, Estimate, ScaledPoints, DistinctLoads;
    if DistinctLoads(rows) {
      var load, target := input.targetLoad, input.targetRetentionDays;
      DistinctLoadsDetermine(m, rows, CpuCores, target);
      DistinctLoadsDetermine(m, rows, MemPeakBytes, target);
      DistinctLoadsDetermine(m, rows, DiskBytes, target);
      PossibleDetermined(m, rows, load, target, CpuCores, e.cpuCores);
      PossibleDetermined(m, rows, load, target, MemPeakBytes, e.memPeakBytes);
      PossibleDetermined(m, rows, load, target, DiskBytes, e.diskBytes);
    }
  }

  /** The report is refused exactly when no row matches. Otherwise the estimates and errors are possible ones
      of the matching rows, and the ends of the cost band are the cost of the range and (1 - budget) and
      (1 + budget) times the total. */
  method BuildReport(m: MathLib, rows: seq<Row>, input: EstimateInput) returns (r: Option<CapacityReport>)
    requires AllPeriodsPositive(FilterMap(Matching(input), rows))
    ensures r.Some? <==>
      exists row :: row in rows && row.instrument == input.instrument && row.workloadType == input.workloadType
    ensures r.Some? ==>
      && r.value.rangeMin.cpuCores == (1.0 - input.errorBudget) * r.value.estimate.cpuCores
      && r.value.rangeMin.memPeakBytes == (1.0 - input.errorBudget) * r.value.estimate.memPeakBytes
      && r.value.rangeMin.diskBytes == (1.0 - input.errorBudget) * r.value.estimate.diskBytes
    ensures r.Some? ==>
      && r.value.rangeMax.cpuCores == (1.0 + input.errorBudget) * r.value.estimate.cpuCores
      && r.value.rangeMax.memPeakBytes == (1.0 + input.errorBudget) * r.value.estimate.memPeakBytes
      && r.value.rangeMax.diskBytes == (1.0 + input.errorBudget) * r.value.estimate.diskBytes
    ensures r.Some? ==>
      (r.value.cost.Some? <==> input.priceRam > 0.0 || input.priceCpu > 0.0 || input.priceDisk > 0.0)
    ensures r.Some? && r.value.cost.Some? ==>
      && Itemised(r.value.cost.value, r.value.estimate, input)
      && r.value.cost.value.total == Price(r.value.estimate, input)
      && r.value.cost.value.totalMin == (1.0 - input.errorBudget) * r.value.cost.value.total
      && r.value.cost.value.totalMax == (1.0 + input.errorBudget) * r.value.cost.value.total
    ensures r.Some? ==>
      var subset := FilterMap(Matching(input), rows);
      && PossibleAllocation(m, subset, input, r.value.estimate)
      && PossibleMean(m, subset, CpuCores, r.value.holdout.cpuCores)
      && PossibleMean(m, subset, MemPeakBytes, r.value.holdout.memPeakBytes)
      && PossibleMean(m, subset, DiskBytes, r.value.holdout.diskBytes)
    ensures r.Some? && DistinctLoads(FilterMap(Matching(input), rows)) ==>
      var subset := FilterMap(Matching(input), rows);
      && r.value.estimate == Allocate(m, subset, input)
      && r.value.holdout == Errors(
           MeanError(m, subset, CpuCores), MeanError(m, subset, MemPeakBytes), MeanError(m, subset, DiskBytes))
  {
    var subset := Select(rows, input);
    MatchingEmptyIff(rows, input);
    hide FilterMap, AllPeriodsPositive, Estimate, Possible, PossibleMean, DistinctLoads, Price, Scaled, MeanError;
    hide Matching, Itemised;
    if |subset| == 0 {
      return None;
    }
    var a := new Row[|subset|](i requires 0 <= i < |subset| => subset[i]);
    assert a[..] == subset;
    var e := EstimateAll(m, a, input.targetLoad, input.targetRetentionDays);
    DistinctAllocation(m, subset, input, e);
    var holdout := ValidateHoldout(m, a);
    var lo, hi := Scaled(e, 1.0 - input.errorBudget), Scaled(e, 1.0 + input.errorBudget);
    var cost := PriceOut(e, lo, hi, input);
    ScaledFields(e, 1.0 - input.errorBudget);
    ScaledFields(e, 1.0 + input.errorBudget);
    CostOfBand(e, input, 1.0 - input.errorBudget);
    CostOfBand(e, input, 1.0 + input.errorBudget);
    r := Some(CapacityReport(e, holdout, lo, hi, cost));
  }

  lemma ScaledFields(e: Estimates, c: real)
    ensures Scaled(e, c).cpuCores == c * e.cpuCores
    ensures Scaled(e, c).memPeakBytes == c * e.memPeakBytes
    ensures Scaled(e, c).diskBytes == c * e.diskBytes
  {
  }

  /** The selection holds the rows of the instrument and the workload, each as often as the table does, and no
      others. */
  lemma SelectionExact(rows: seq<Row>, input: EstimateInput, r: Row)
    ensures multiset(FilterMap(Matching(input), rows))[r]
      == if r.instrument == input.instrument && r.workloadType == input.workloadType then multiset(rows)[r] else 0
  {
    FilterCount(Matching(input), rows, r);
  }

  lemma MatchingEmptyIff(rows: seq<Row>, input: EstimateInput)
    ensures |FilterMap(Matching(input), rows)| > 0
      <==> exists row :: row in rows && row.instrument == input.instrument && row.workloadType == input.workloadType
  {
    var s := FilterMap(Matching(input), rows);
    if |s| > 0 {
      FilterMapMembers(Matching(input), rows, s[0]);
    }
    if row :| row in rows && row.instrument == input.instrument && row.workloadType == input.workloadType {
      FilterMapMembers(Matching(input), rows, row);
      assert Matching(input)(row) == Some(row);
    }
  }

  /** The cost of a scaled allocation is the scaled cost. */
  lemma CostOfBand(e: Estimates, input: EstimateInput, c: real)
    ensures Price(Scaled(e, c), input) == c * Price(e, input)
  {
    PriceOfValues(e.memPeakBytes, e.cpuCores, e.diskBytes, input.priceRam, input.priceCpu, input.priceDisk, c,
      Price(e, input), Price(Scaled(e, c), input));
  }

  lemma PriceOfValues(
      mem: real, cpu: real, disk: real, ram: real, core: real, gib: real, c: real, total: real, scaled: real)
    requires total == mem / GIB * ram + cpu * core + disk / GIB * gib
    requires scaled == mem * c / GIB * ram + cpu * c * core + disk * c / GIB * gib
    ensures scaled == c * total
  {
    var a, d := mem / GIB, disk / GIB;
    assert mem * c / GIB == a * c && disk * c / GIB == d * c;
    assert scaled == a * c * ram + cpu * c * core + d * c * gib;
  }

  lemma PriceMonotone(e: Estimates, e': Estimates, input: EstimateInput)
    requires input.priceRam >= 0.0 && input.priceCpu >= 0.0 && input.priceDisk >= 0.0
    requires e.cpuCores <= e'.cpuCores && e.memPeakBytes <= e'.memPeakBytes && e.diskBytes <= e'.diskBytes
    ensures Price(e, input) <= Price(e', input)
  {
    OrderOfValues(e.memPeakBytes / GIB, e.cpuCores, e.diskBytes / GIB,
      e'.memPeakBytes / GIB, e'.cpuCores, e'.diskBytes / GIB,
      input.priceRam, input.priceCpu, input.priceDisk, Price(e, input), Price(e', input));
  }

  lemma OrderOfValues(
      a: real, b: real, c: real, a': real, b': real, c': real,
      ram: real, core: real, gib: real, total: real, total': real)
    requires ram >= 0.0 && core >= 0.0 && gib >= 0.0 && a <= a' && b <= b' && c <= c'
    requires total == a * ram + b * core + c * gib
    requires total' == a' * ram + b' * core + c' * gib
    ensures total <= total'
  {
    assert (a' - a) * ram >= 0.0 && (b' - b) * core >= 0.0 && (c' - c) * gib >= 0.0;
  }

  /** Keeping data longer never costs less: each resource has its own exponent, and all three grow. Every
      allocation for the shorter period is matched by one for the longer period that costs at least as much,
      and conversely. */
  lemma CostGrowsWithRetention(m: MathLib, rows: seq<Row>, input: EstimateInput, input': EstimateInput)
    requires m.Lawful() && AllPeriodsPositive(rows)
    requires input' == input.(targetRetentionDays := input'.targetRetentionDays)
    requires 0.0 < input.targetRetentionDays <= input'.targetRetentionDays
    requires input.priceRam >= 0.0 && input.priceCpu >= 0.0 && input.priceDisk >= 0.0
    ensures Price(Allocate(m, rows, input), input) <= Price(Allocate(m, rows, input'), input')
    ensures forall e :: PossibleAllocation(m, rows, input, e) ==>
      exists e' :: PossibleAllocation(m, rows, input', e') && Price(e, input) <= Price(e', input')
    ensures forall e' :: PossibleAllocation(m, rows, input', e') ==>
      exists e :: PossibleAllocation(m, rows, input, e) && Price(e, input) <= Price(e', input')
  {
    hide Estimate, Possible, Price, MathLib.Lawful, AllPeriodsPositive;
    PositiveFor(rows, CpuCores);
    PositiveFor(rows, MemPeakBytes);
    PositiveFor(rows, DiskBytes);
    var t, t' := input.targetRetentionDays, input'.targetRetentionDays;
    EstimateGrowsWithRetention(m, rows, CpuCores, input.targetLoad, t, t');
    EstimateGrowsWithRetention(m, rows, MemPeakBytes, input.targetLoad, t, t');
    EstimateGrowsWithRetention(m, rows, DiskBytes, input.targetLoad, t, t');
    PriceMonotone(Allocate(m, rows, input), Allocate(m, rows, input'), input);
    forall e | PossibleAllocation(m, rows, input, e)
      ensures exists e' :: PossibleAllocation(m, rows, input', e') && Price(e, input) <= Price(e', input')
    {
      var c :| Possible(m, rows, input.targetLoad, t', CpuCores, c) && e.cpuCores <= c;
      var r :| Possible(m, rows, input.targetLoad, t', MemPeakBytes, r) && e.memPeakBytes <= r;
      var d :| Possible(m, rows, input.targetLoad, t', DiskBytes, d) && e.diskBytes <= d;
      var e' := Estimates(c, r, d);
      PriceMonotone(e, e', input);
      PriceSame(e', input, input');
      assert PossibleAllocation(m, rows, input', e');
    }
    forall e' | PossibleAllocation(m, rows, input', e')
      ensures exists e :: PossibleAllocation(m, rows, input, e) && Price(e, input) <= Price(e', input')
    {
      var c :| Possible(m, rows, input.targetLoad, t, CpuCores, c) && c <= e'.cpuCores;
      var r :| Possible(m, rows, input.targetLoad, t, MemPeakBytes, r) && r <= e'.memPeakBytes;
      var d :| Possible(m, rows, input.targetLoad, t, DiskBytes, d) && d <= e'.diskBytes;
      var e := Estimates(c, r, d);
      PriceMonotone(e, e', input);
      PriceSame(e', input, input');
      assert PossibleAllocation(m, rows, input, e);
    }
    PriceSame(Allocate(m, rows, input'), input, input');
  }

  /** The price of an allocation does not depend on the retention asked for. */
  lemma PriceSame(e: Estimates, input: EstimateInput, input': EstimateInput)
    requires input' == input.(targetRetentionDays := input'.targetRetentionDays)
    ensures Price(e, input) == Price(e, input')
  {
  }
}
