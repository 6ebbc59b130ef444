/** Running experiments: obs-bench/internal/usecases/experiment/usecase.go and
    obs-bench/internal/commands/run-batch/command.go, and what the stored rows are worth to the estimator. */
module Experiment {
  import opened Collections
  import opened Instruments
  import opened Storage
  import CM = CapacityModel

  const NANOS_PER_SECOND: int := 1_000_000_000
  const WARMUP: int := 15 * 60 * NANOS_PER_SECOND

  datatype Entry = Entry(instrument: string, loadValue: int, retentionDays: int, duration: int)

  /** A stage that was started, with what it was asked for. */
  datatype Stage =
    | Monitoring
    | Deploy(instrument: string, retentionDays: int)
    | Workload(instrument: string, loadValue: int, duration: int)
    | Collect(instrument: string, window: int)
    | SaveRow

  /** How the outside world answers one run: which stages succeed, what is collected, and the identifier
      and time the database supplies. */
  datatype World = World(
    monitoring: bool, deploy: bool, workload: bool, collected: Option<Usage>, saveFails: bool,
    id: Value, createdAt: Value)

  function WorkloadName(instrument: string): string {
    if IsLogBackend(instrument) then "logs" else "metrics"
  }

  predicate Succeeds(w: World) {
    w.monitoring && w.deploy && w.workload && w.collected.Some? && !w.saveFails
  }

  /** What one run starts: the stages in order, stage number k exactly when all earlier ones succeeded. Resources
      are collected over the run without its first 900 seconds, or over the whole of a run that is not longer. */
  ghost predicate IsTrace(
      t: seq<Stage>, instrument: string, loadValue: int, retentionDays: int, duration: int, w: World)
  {
    var window := if duration > 900 * 1_000_000_000 then duration - 900 * 1_000_000_000 else duration;
    && 1 <= |t| <= 5
    && t == [Monitoring, Deploy(instrument, retentionDays), Workload(instrument, loadValue, duration),
             Collect(instrument, window), SaveRow][..|t|]
    && (|t| >= 2 <==> w.monitoring)
    && (|t| >= 3 <==> w.monitoring && w.deploy)
    && (|t| >= 4 <==> w.monitoring && w.deploy && w.workload)
    && (|t| >= 5 <==> w.monitoring && w.deploy && w.workload && w.collected.Some?)
  }

  function InfoOf(instrument: string, loadValue: int, retentionDays: int, duration: int, usage: Usage): UsageInfo {
    UsageInfo(WorkloadName(instrument), loadValue, retentionDays, duration / NANOS_PER_SECOND, instrument, usage)
  }

  predicate ValidEntry(e: Entry) {
    e.loadValue > 0 && e.retentionDays in [1, 7, 30] && e.duration > 0 && Parsed(e.instrument).Some?
  }

  /** What one entry of a batch starts: nothing when it is invalid. */
  ghost predicate EntryTrace(t: seq<Stage>, e: Entry, w: World) {
    if ValidEntry(e) then IsTrace(t, Parsed(e.instrument).value, e.loadValue, e.retentionDays, e.duration, w)
    else t == []
  }

  /** What the first n entries start, one after the other. */
  ghost predicate BatchTrace(t: seq<Stage>, entries: seq<Entry>, worlds: seq<World>, n: nat)
    requires n <= |entries| == |worlds|
    decreases n
  {
    if n == 0 then t == []
    else exists k ::
      0 <= k <= |t| && BatchTrace(t[..k], entries, worlds, n - 1) && EntryTrace(t[k..], entries[n - 1], worlds[n - 1])
  }

  lemma NothingStarted(t: seq<Stage>, entries: seq<Entry>, worlds: seq<World>)
    requires t == [] && |entries| == |worlds|
    ensures BatchTrace(t, entries, worlds, 0)
  {
  }

  lemma BatchTraceStep(t: seq<Stage>, added: seq<Stage>, entries: seq<Entry>, worlds: seq<World>, n: nat)
    requires n < |entries| == |worlds|
    requires BatchTrace(t, entries, worlds, n) && EntryTrace(added, entries[n], worlds[n])
    ensures BatchTrace(t + added, entries, worlds, n + 1)
  {
    hide EntryTrace;
    var all := t + added;
    assert all[..|t|] == t && all[|t|..] == added;
  }

  predicate Saved(e: Entry, w: World) {
    ValidEntry(e) && Succeeds(w)
  }

  function RecordOf(e: Entry, w: World): Record
    requires Saved(e, w)
  {
    ToRecord(InfoOf(Parsed(e.instrument).value, e.loadValue, e.retentionDays, e.duration, w.collected.value),
             w.id, w.createdAt)
  }

  /** The rows the first n entries leave behind. */
  function SavedRecords(entries: seq<Entry>, worlds: seq<World>, n: nat): seq<Record>
    requires n <= |entries| == |worlds|
  {
    if n == 0 then []
    else if Saved(entries[n - 1], worlds[n - 1]) then
      SavedRecords(entries, worlds, n - 1) + [RecordOf(entries[n - 1], worlds[n - 1])]
    else SavedRecords(entries, worlds, n - 1)
  }

  // ---------------------------------------------------------------------------------------
  // From stored rows to estimator rows

  function Numeric(v: Value): Option<real> {
    match v
    case Number(n) => Some(n as real)
    case Float(x) => Some(x)
    case _ => None
  }

  /** The row the advisor's server reads back; None when a column does not scan. */
  function LoadRow(r: Record): Option<CM.Row> {
    match (Field(r, Instrument), Field(r, WorkloadType), Numeric(Field(r, LoadValue)), Numeric(Field(r, RetentionDays)),
           Numeric(Field(r, DurationSeconds)), Numeric(Field(r, CpuCores)), Numeric(Field(r, MemPeakBytes)),
           Numeric(Field(r, DiskBytes)))
    case (Text(i), Text(w), Some(l), Some(t), Some(d), Some(c), Some(p), Some(k)) =>
      Some(CM.Row(i, w, l, t, d, c, p, k))
    case _ => None
  }

  /** What the estimator needs of a row, and what makes it findable by instrument and workload. */
  ghost predicate Measured(row: CM.Row) {
    && row.instrument in ALL_INSTRUMENTS && row.workloadType == WorkloadName(row.instrument)
    && row.loadValue > 0.0 && row.retentionDays in [1.0, 7.0, 30.0]
    && CM.MeasuredPeriodDays(row) > 0.0
  }

  /** The row a saved entry leaves behind, field by field; a duration is kept in whole seconds. */
  lemma RecordOfFields(e: Entry, w: World)
    requires Saved(e, w)
    ensures
      var r, usage := RecordOf(e, w), w.collected.value;
      && Field(r, Id) == w.id && Field(r, CreatedAt) == w.createdAt
      && Field(r, LoadValue) == Number(e.loadValue) && Field(r, RetentionDays) == Number(e.retentionDays)
      && Field(r, DurationSeconds) == Number(e.duration / 1_000_000_000)
      && Field(r, Instrument) == Text(Parsed(e.instrument).value) && WellTagged(r)
      && Field(r, CpuCores) == Float(usage.cpuCores) && Field(r, MemAvgBytes) == Number(usage.memAvgBytes)
      && Field(r, MemPeakBytes) == Number(usage.memPeakBytes) && Field(r, DiskBytes) == Number(usage.diskBytes)
  {
    hide ToRecord, Field, Parsed;
    SavedFields(InfoOf(Parsed(e.instrument).value, e.loadValue, e.retentionDays, e.duration, w.collected.value),
      w.id, w.createdAt);
  }

  lemma SavedRowMeasured(e: Entry, w: World)
    requires Saved(e, w)
    ensures WellTagged(RecordOf(e, w))
    ensures LoadRow(RecordOf(e, w)).Some? && Measured(LoadRow(RecordOf(e, w)).value)
  {
    hide Parsed;
    var inst := Parsed(e.instrument).value;
    assert inst in ALL_INSTRUMENTS by { ParsedKnown(e.instrument); }
    var info := InfoOf(inst, e.loadValue, e.retentionDays, e.duration, w.collected.value);
    LoadSaved(info, w.id, w.createdAt);
    assert info.durationSeconds >= 0;
  }

  lemma ParsedKnown(s: string)
    requires Parsed(s).Some?
    ensures Parsed(s).value in ALL_INSTRUMENTS
  {
  }

  /** Reading back a saved row gives what was saved. */
  lemma LoadSaved(info: UsageInfo, id: Value, createdAt: Value)
    ensures LoadRow(ToRecord(info, id, createdAt)) == Some(CM.Row(info.instrument, info.workloadType,
      info.loadValue as real, info.retentionDays as real, info.durationSeconds as real,
      info.usage.cpuCores, info.usage.memPeakBytes as real, info.usage.diskBytes as real))
  {
  }

  /** Every row a batch saves is well tagged and measured over a positive period at a positive load. */
  lemma {:induction false} SavedRecordsMeasured(entries: seq<Entry>, worlds: seq<World>, n: nat)
    requires n <= |entries| == |worlds|
    ensures forall r :: r in SavedRecords(entries, worlds, n) ==>
      WellTagged(r) && LoadRow(r).Some? && Measured(LoadRow(r).value)
  {
    hide LoadRow, Measured, WellTagged, RecordOf, Saved;
    if n > 0 {
      SavedRecordsMeasured(entries, worlds, n - 1);
      if Saved(entries[n - 1], worlds[n - 1]) {
        SavedRowMeasured(entries[n - 1], worlds[n - 1]);
      }
    }
  }

  const LOAD: Record -> Option<CM.Row> := (r: Record) => LoadRow(r)

  /** What the advisor needs of a stored row: it loads, its workload type agrees with its instrument, and it
      was measured over positive periods. */
  ghost predicate FitRow(r: Record) {
    && LoadRow(r).Some? && WellTagged(r)
    && LoadRow(r).value.retentionDays > 0.0 && CM.MeasuredPeriodDays(LoadRow(r).value) > 0.0
  }

  /** The measurement table exists and every row in it is fit, whoever wrote it. */
  ghost predicate Fit(ts: Tables) {
    USAGE in ts && forall r :: r in ts[USAGE].rows ==> FitRow(r)
  }

  /** An old row with a text for an instrument and numbers for the measurements. */
  ghost predicate TypedRow(r: Record) {
    && Field(r, Instrument).Text? && Numeric(Field(r, Series)).Some? && Numeric(Field(r, DurationSeconds)).Some?
    && Numeric(Field(r, CpuCores)).Some? && Numeric(Field(r, MemPeakBytes)).Some? && Numeric(Field(r, DiskBytes)).Some?
  }

  lemma MigratedRowFitIff(r: Record)
    ensures FitRow(MigrateRow(r)) <==> TypedRow(r)
  {
    hide MigrateRow, Field;
    FieldsSet(r);
    FieldKept(r, Instrument);
    FieldKept(r, DurationSeconds);
    FieldKept(r, CpuCores);
    FieldKept(r, MemPeakBytes);
    FieldKept(r, DiskBytes);
  }

  /** A migrated table is fit exactly when the old rows were typed. */
  lemma MigrationFitIff(ts: Tables, ts': Tables)
    requires Migrated(ts) == Some(ts')
    ensures Fit(ts') <==> forall r :: r in ts[USAGE].rows ==> TypedRow(r)
  {
    hide MigrateRow, FitRow, TypedRow, Copyable;
    var before, after := ts[USAGE].rows, ts'[USAGE].rows;
    forall i | 0 <= i < |before| ensures FitRow(after[i]) <==> TypedRow(before[i]) {
      MigratedRowFitIff(before[i]);
    }
    if Fit(ts') {
      forall r | r in before ensures TypedRow(r) {
        var i :| 0 <= i < |before| && before[i] == r;
        assert after[i] in after;
      }
    }
  }

  /** What a batch saves is fit, so a fit table stays fit. */
  lemma AppendedFit(ts: Tables, entries: seq<Entry>, worlds: seq<World>, n: nat)
    requires n <= |entries| == |worlds| && Fit(ts)
    ensures Fit(Appended(ts, SavedRecords(entries, worlds, n)))
  {
    hide LoadRow, WellTagged, SavedRecords;
    SavedRecordsMeasured(entries, worlds, n);
  }

  // ---------------------------------------------------------------------------------------
  // The commands

  method Validate(e: Entry) returns (ok: bool)
    ensures ok <==> ValidEntry(e)
    ensures ok <==>
      && e.loadValue > 0 && (e.retentionDays == 1 || e.retentionDays == 7 || e.retentionDays == 30)
      && e.duration > 0
      && exists i :: i in ["prometheus", "victoria_metrics", "loki", "opensearch"] && Names(e.instrument, i)
  {
    if e.loadValue <= 0 {
      return false;
    }
    if e.retentionDays != 1 && e.retentionDays != 7 && e.retentionDays != 30 {
      return false;
    }
    if e.duration <= 0 {
      return false;
    }
    var inst := ParseInstrument(e.instrument);
    ok := inst.Some?;
  }

  class Runner {
    const db: Database
    var trace: seq<Stage>

    constructor (db: Database)
      ensures this.db == db && trace == []
    {
      this.db := db;
      trace := [];
    }

    ghost predicate Ready()
      reads this, db
    {
      USAGE in db.tables
    }

    /** The stages run in order, each only if the ones before it succeeded. A row is appended exactly when
        all five succeed, and nothing else in the database changes. */
    method RunExperiment(instrument: string, loadValue: int, retentionDays: int, duration: int, w: World)
      returns (ok: bool)
      requires Ready()
      modifies this, db
      ensures Ready()
      ensures ok <==> Succeeds(w)
      ensures |trace| >= |old(trace)| && trace[..|old(trace)|] == old(trace)
      ensures IsTrace(trace[|old(trace)|..], instrument, loadValue, retentionDays, duration, w)
      ensures !ok ==> db.tables == old(db.tables)
      ensures ok ==> db.tables == Appended(old(db.tables),
        [ToRecord(InfoOf(instrument, loadValue, retentionDays, duration, w.collected.value), w.id, w.createdAt)])
    {
      var collectWindow := duration - WARMUP;
      if collectWindow <= 0 {
        collectWindow := duration;
      }
      ghost var before := trace;
      ghost var all := [
        Monitoring, Deploy(instrument, retentionDays), Workload(instrument, loadValue, duration),
        Collect(instrument, collectWindow), SaveRow];
      trace := trace + [Monitoring];
      assert trace == before + all[..1];
      if !w.monitoring {
        return false;
      }
      trace := trace + [Deploy(instrument, retentionDays)];
      assert trace == before + all[..2];
      if !w.deploy {
        return false;
      }
      trace := trace + [Workload(instrument, loadValue, duration)];
      assert trace == before + all[..3];
      if !w.workload {
        return false;
      }
      trace := trace + [Collect(instrument, collectWindow)];
      assert trace == before + all[..4];
      if w.collected.None? {
        return false;
      }
      var seconds := duration / NANOS_PER_SECOND;
      var info := UsageInfo("metrics", loadValue, retentionDays, seconds, instrument, w.collected.value);
      if IsLogBackend(instrument) {
        info := info.(workloadType := "logs");
      }
      trace := trace + [SaveRow];
      ok := db.Save(info, w.id, w.createdAt, w.saveFails);
      assert trace == before + all[..5];
    }

    /** One entry of a batch: an invalid one is skipped before any stage starts. */
    method RunEntry(e: Entry, w: World) returns (done: bool)
      requires Ready()
      modifies this, db
      ensures Ready()
      ensures done <==> Saved(e, w)
      ensures !done ==> db.tables == old(db.tables)
      ensures done ==> db.tables == Appended(old(db.tables), [RecordOf(e, w)])
      ensures |trace| >= |old(trace)| && trace[..|old(trace)|] == old(trace)
      ensures EntryTrace(trace[|old(trace)|..], e, w)
    {
      hide Parsed, Succeeds, ToRecord;
      var valid := Validate(e);
      if !valid {
        return false;
      }
      var inst := ParseInstrument(e.instrument);
      done := RunExperiment(inst.value, e.loadValue, e.retentionDays, e.duration, w);
    }

    /** The batch counts every entry once and appends, in order, the rows of those that succeed. It reports
        success exactly when there are entries and all of them were saved. */
    method RunBatch(entries: seq<Entry>, worlds: seq<World>) returns (succeeded: nat, failed: nat, ok: bool)
      requires Ready() && |entries| == |worlds|
      modifies this, db
      ensures Ready()
      ensures succeeded + failed == |entries|
      ensures succeeded == |SavedRecords(entries, worlds, |entries|)|
      ensures db.tables == Appended(old(db.tables), SavedRecords(entries, worlds, |entries|))
      ensures Fit(old(db.tables)) ==> Fit(db.tables)
      ensures |trace| >= |old(trace)| && trace[..|old(trace)|] == old(trace)
      ensures BatchTrace(trace[|old(trace)|..], entries, worlds, |entries|)
      ensures ok <==> |entries| > 0 && forall i :: 0 <= i < |entries| ==> Saved(entries[i], worlds[i])
    {
      hide Saved, RecordOf, Appended, Fit, BatchTrace, EntryTrace;
      ghost var before := trace;
      NothingStarted(trace[|before|..], entries, worlds);
      if Fit(db.tables) {
        AppendedFit(db.tables, entries, worlds, |entries|);
      }
      succeeded, failed, ok := 0, 0, false;
      AppendedTwice(db.tables, [], []);
      if |entries| == 0 {
        assert SavedRecords(entries, worlds, 0) == [];
        return;
      }
      for i := 0 to |entries|
        invariant Ready()
        invariant succeeded + failed == i
        invariant succeeded == |SavedRecords(entries, worlds, i)|
        invariant db.tables == Appended(old(db.tables), SavedRecords(entries, worlds, i))
        invariant |trace| >= |before| && trace[..|before|] == before
        invariant BatchTrace(trace[|before|..], entries, worlds, i)
        invariant failed == 0 <==> forall j :: 0 <= j < i ==> Saved(entries[j], worlds[j])
      {
        ghost var now := trace;
        var done := RunEntry(entries[i], worlds[i]);
        BatchTraceStep(now[|before|..], trace[|now|..], entries, worlds, i);
        assert trace[|before|..] == now[|before|..] + trace[|now|..];
        if !done {
          failed := failed + 1;
          continue;
        }
        AppendedTwice(old(db.tables), SavedRecords(entries, worlds, i), [RecordOf(entries[i], worlds[i])]);
        succeeded := succeeded + 1;
      }
      ok := failed == 0;
    }
  }
}
