/** From a batch file to an answer: what the benchmark measured is what the advisor reports. */
module Pipeline {
  import opened Collections
  import opened Instruments
  import opened Sorting
  import opened LeastSquares
  import opened Interpolation
  import S = Storage
  import opened Experiment
  import opened PowerLaw
  import opened CapacityModel
  import opened CapacityTheorems
  import opened Holdout
  import opened Report

  /** The rows the advisor reads: the whole table, whoever wrote it. */
  function AdvisorRows(ts: S.Tables): seq<Row>
    requires S.USAGE in ts
  {
    FilterMap(LOAD, ts[S.USAGE].rows)
  }

  /** All rows of a fit table load, and they meet the estimator's precondition for every resource. */
  lemma FitFeedsEstimator(ts: S.Tables)
    requires Fit(ts)
    ensures |AdvisorRows(ts)| == |ts[S.USAGE].rows|
    ensures AllPeriodsPositive(AdvisorRows(ts))
  {
    hide LoadRow, S.WellTagged, FilterMap, KeyVal, MeasuredPeriodDays;
    var records := ts[S.USAGE].rows;
    forall r | r in records ensures LOAD(r).Some? {
      assert FitRow(r);
    }
    AllKept(LOAD, records);
    forall key, row | row in AdvisorRows(ts) && KeyVal(row, key) > 0.0 ensures PeriodForKey(row, key) > 0.0 {
      FilterMapMembers(LOAD, records, row);
      var r :| r in records && LOAD(r) == Some(row);
      assert FitRow(r);
    }
  }

  /** Selecting rows for a report keeps the estimator's precondition. */
  lemma SelectionPositive(rows: seq<Row>, input: EstimateInput)
    requires AllPeriodsPositive(rows)
    ensures AllPeriodsPositive(FilterMap(Matching(input), rows))
  {
    hide KeyVal, PeriodForKey;
    var subset := FilterMap(Matching(input), rows);
    forall key, r | r in subset && KeyVal(r, key) > 0.0 ensures PeriodForKey(r, key) > 0.0 {
      FilterMapMembers(Matching(input), rows, r);
      PositiveFor(rows, key);
    }
  }

  /** Every report over a fit table meets the estimator's precondition. */
  lemma ReportsDefined(ts: S.Tables, input: EstimateInput)
    requires Fit(ts)
    ensures AllPeriodsPositive(FilterMap(Matching(input), AdvisorRows(ts)))
  {
    hide AllPeriodsPositive, AdvisorRows, FitRow;
    FitFeedsEstimator(ts);
    SelectionPositive(AdvisorRows(ts), input);
  }

  lemma {:induction false} SavedRecordPresent(entries: seq<Entry>, worlds: seq<World>, n: nat, i: nat)
    requires i < n <= |entries| == |worlds| && Saved(entries[i], worlds[i])
    ensures RecordOf(entries[i], worlds[i]) in SavedRecords(entries, worlds, n)
    decreases n
  {
    hide RecordOf, Saved;
    if i < n - 1 {
      SavedRecordPresent(entries, worlds, n - 1, i);
    }
  }

  function SavedRow(e: Entry, w: World): Row
    requires Saved(e, w)
  {
    Row(Parsed(e.instrument).value, WorkloadName(Parsed(e.instrument).value),
        e.loadValue as real, e.retentionDays as real, (e.duration / NANOS_PER_SECOND) as real,
        w.collected.value.cpuCores, w.collected.value.memPeakBytes as real, w.collected.value.diskBytes as real)
  }

  /** The question that repeats a saved entry. */
  ghost predicate Asks(input: EstimateInput, e: Entry, w: World)
    requires Saved(e, w)
  {
    var row := SavedRow(e, w);
    && input.instrument == row.instrument && input.workloadType == row.workloadType
    && input.targetLoad == row.loadValue && input.targetRetentionDays == row.retentionDays
  }

  lemma {:induction false} SavedRowSelected(
      ts: S.Tables, entries: seq<Entry>, worlds: seq<World>, i: nat, input: EstimateInput)
    requires S.USAGE in ts && i < |entries| == |worlds|
    requires Saved(entries[i], worlds[i]) && Asks(input, entries[i], worlds[i])
    ensures
      var after := S.Appended(ts, SavedRecords(entries, worlds, |entries|));
      SavedRow(entries[i], worlds[i]) in FilterMap(Matching(input), AdvisorRows(after))
  {
    hide FilterMap, SavedRecords, Parsed, LoadRow;
    var e, w := entries[i], worlds[i];
    var records := SavedRecords(entries, worlds, |entries|);
    var after := S.Appended(ts, records);
    SavedRecordPresent(entries, worlds, |entries|, i);
    LoadSaved(InfoOf(Parsed(e.instrument).value, e.loadValue, e.retentionDays, e.duration, w.collected.value),
      w.id, w.createdAt);
    assert RecordOf(e, w) in after[S.USAGE].rows;
    assert LOAD(RecordOf(e, w)) == Some(SavedRow(e, w));
    FilterMapMembers(LOAD, after[S.USAGE].rows, SavedRow(e, w));
    assert Matching(input)(SavedRow(e, w)) == Some(SavedRow(e, w));
    FilterMapMembers(Matching(input), AdvisorRows(after), SavedRow(e, w));
  }

  /** Asked for a configuration that the batch ran, whatever fit rows the table held before, every possible
      answer is what was measured in that run exactly when the contributing rows at that load agree with it.
      Other loads play no part. */
  lemma {:induction false} MeasuredConfigurationAnswered(
      m: MathLib, ts: S.Tables, entries: seq<Entry>, worlds: seq<World>, i: nat, input: EstimateInput,
      key: ResourceKey)
    requires m.Lawful() && Fit(ts) && i < |entries| == |worlds|
    requires Saved(entries[i], worlds[i]) && Asks(input, entries[i], worlds[i])
    requires key != DiskBytes && KeyVal(SavedRow(entries[i], worlds[i]), key) > 0.0
    ensures
      var after := S.Appended(ts, SavedRecords(entries, worlds, |entries|));
      var subset := FilterMap(Matching(input), AdvisorRows(after));
      var row := SavedRow(entries[i], worlds[i]);
      (forall u :: Possible(m, subset, input.targetLoad, input.targetRetentionDays, key, u) ==> u == KeyVal(row, key))
      <==> (forall b :: b in subset && KeyVal(b, key) > 0.0 && b.loadValue == row.loadValue ==>
        SameStrength(m, row, b, key, Alpha(m, subset, key)))
  {
    hide FilterMap, Possible, Alpha, AdvisorRows, AllPeriodsPositive, FitRow, MathLib.Lawful, Matching, SameStrength;
    var row := SavedRow(entries[i], worlds[i]);
    var after := S.Appended(ts, SavedRecords(entries, worlds, |entries|));
    var subset := FilterMap(Matching(input), AdvisorRows(after));
    AppendedFit(ts, entries, worlds, |entries|);
    ReportsDefined(after, input);
    PositiveFor(subset, key);
    SavedRowSelected(ts, entries, worlds, i, input);
    ReproducedIff(m, subset, key, row);
  }

  // ---------------------------------------------------------------------------------------
  // A repeated entry

  /** Three hours of a thousand log lines a second into Loki, kept for seven days. */
  const REPEATED: Entry := Entry("loki", 1000, 7, 3 * 3600 * NANOS_PER_SECOND)

  function RunMeasuring(cpu: real): World {
    World(true, true, true, Some(S.Usage(cpu, 0, 0, 0)), false, S.Null, S.Null)
  }

  function RepeatedRow(cpu: real): Row {
    Row("loki", "logs", 1000.0, 7.0, 10800.0, cpu, 0.0, 0.0)
  }

  lemma RepeatedSaved(cpu: real)
    ensures Saved(REPEATED, RunMeasuring(cpu)) && LOAD(RecordOf(REPEATED, RunMeasuring(cpu))) == Some(RepeatedRow(cpu))
  {
    hide TrimSpace, LoadRow, S.ToRecord;
    InstrumentsTrimmed(2);
    assert "" + "loki" + "" == "loki";
    TrimSpacePadded("", "loki", "");
    assert Parsed("loki") == Some("loki");
    var w := RunMeasuring(cpu);
    LoadSaved(InfoOf("loki", 1000, 7, 3 * 3600 * NANOS_PER_SECOND, w.collected.value), S.Null, S.Null);
  }

  lemma RepeatedRows()
    ensures FilterMap(LOAD, SavedRecords([REPEATED, REPEATED], [RunMeasuring(1.0), RunMeasuring(2.0)], 2))
      == [RepeatedRow(1.0), RepeatedRow(2.0)]
  {
    hide FilterMap, Saved, RecordOf, LoadRow;
    var entries, worlds := [REPEATED, REPEATED], [RunMeasuring(1.0), RunMeasuring(2.0)];
    RepeatedSaved(1.0);
    RepeatedSaved(2.0);
    var a, b := RecordOf(REPEATED, RunMeasuring(1.0)), RecordOf(REPEATED, RunMeasuring(2.0));
    assert SavedRecords(entries, worlds, 1) == [a];
    assert SavedRecords(entries, worlds, 2) == [a, b];
    FilterMapPair(LOAD, a, b);
  }

  lemma RepeatedPoints(m: MathLib)
    requires m.Lawful()
    ensures ScaledPoints(m, [RepeatedRow(1.0), RepeatedRow(2.0)], CpuCores, 7.0)
      == [Point(1000.0, 1.0), Point(1000.0, 2.0)]
  {
    hide FilterMap, Alpha, ScaledPoint, MathLib.Lawful;
    var a, b := RepeatedRow(1.0), RepeatedRow(2.0);
    var alpha := Alpha(m, [a, b], CpuCores);
    OwnPoint(m, a, CpuCores, alpha);
    OwnPoint(m, b, CpuCores, alpha);
    FilterMapPair(ScaledPoint(m, CpuCores, 7.0, alpha), a, b);
  }

  /** A batch that repeats an entry leaves the answer open: with 1 and 2 cores measured at the same load and
      retention, both are possible answers to the same question. */
  lemma RepeatedEntryLeavesAnswerOpen(m: MathLib)
    requires m.Lawful()
    ensures
      var records := SavedRecords([REPEATED, REPEATED], [RunMeasuring(1.0), RunMeasuring(2.0)], 2);
      && Possible(m, FilterMap(LOAD, records), 1000.0, 7.0, CpuCores, 1.0)
      && Possible(m, FilterMap(LOAD, records), 1000.0, 7.0, CpuCores, 2.0)
  {
    hide FilterMap, ScaledPoints, SavedRecords, MathLib.Lawful;
    RepeatedRows();
    RepeatedPoints(m);
    var p, q := Point(1000.0, 1.0), Point(1000.0, 2.0);
    assert multiset([p, q]) == multiset([q, p]);
    assert IsSorting(X, [p, q], [p, q]) && IsSorting(X, [q, p], [p, q]);
    assert Curve([p, q], 1000.0) == 1.0 && Curve([q, p], 1000.0) == 2.0;
  }
}
