/** The measurement table: obs-bench/internal/providers/resources-usage-info-storage/storage.go.
    Every database call may fail; the caller of a method chooses which ones do. */
module Storage {
  import opened Collections
  import opened Instruments

  datatype Value = Null | Number(n: int) | Float(x: real) | Text(s: string)

  datatype Column =
    | Id | CreatedAt | WorkloadType | LoadValue | Series | RetentionDays | DurationSeconds
    | CpuCores | MemAvgBytes | MemPeakBytes | DiskBytes | Instrument

  function NameOf(c: Column): string {
    match c
    case Id => "id"
    case CreatedAt => "created_at"
    case WorkloadType => "workload_type"
    case LoadValue => "load_value"
    case Series => "series"
    case RetentionDays => "retention_days"
    case DurationSeconds => "duration_seconds"
    case CpuCores => "cpu_cores"
    case MemAvgBytes => "mem_avg_bytes"
    case MemPeakBytes => "mem_peak_bytes"
    case DiskBytes => "disk_bytes"
    case Instrument => "instrument"
  }

  type Record = map<Column, Value>

  datatype Table = Table(columns: seq<string>, rows: seq<Record>)

  type Tables = map<string, Table>

  const USAGE := "resource_usage_info"
  const SCRATCH := "resource_usage_info_new"

  const CURRENT_COLUMNS: seq<Column> := [
    Id, CreatedAt, WorkloadType, LoadValue, RetentionDays, DurationSeconds,
    CpuCores, MemAvgBytes, MemPeakBytes, DiskBytes, Instrument]

  /** The columns the copying statement reads from the old table. */
  const LEGACY_COLUMNS: seq<Column> := [
    Id, CreatedAt, Series, DurationSeconds, CpuCores, MemAvgBytes, MemPeakBytes, DiskBytes, Instrument]

  function LowerChar(c: char): (l: char)
    ensures l as int == if 65 <= c as int <= 90 then c as int + 32 else c as int
  {
    if 'A' <= c <= 'Z' then c - 'A' + 'a' else c
  }

  function ToLower(s: string): string {
    Map(LowerChar, s)
  }

  /** Column names are compared without regard to case. */
  predicate HasColumn(t: Table, c: Column) {
    NameOf(c) in Map(ToLower, t.columns)
  }

  /** The check made before migrating: all three new columns exist. */
  predicate UpToDate(ts: Tables) {
    USAGE in ts && HasColumn(ts[USAGE], WorkloadType) && HasColumn(ts[USAGE], LoadValue)
    && HasColumn(ts[USAGE], RetentionDays)
  }

  function Field(r: Record, c: Column): Value {
    if c in r then r[c] else Null
  }

  function WorkloadOf(instrument: Value): Value {
    if instrument == Text("loki") || instrument == Text("opensearch") then Text("logs") else Text("metrics")
  }

  function MigrateRow(r: Record): Record {
    map[
      Id := Field(r, Id),
      CreatedAt := Field(r, CreatedAt),
      WorkloadType := WorkloadOf(Field(r, Instrument)),
      LoadValue := Field(r, Series),
      RetentionDays := Number(7),
      DurationSeconds := Field(r, DurationSeconds),
      CpuCores := Field(r, CpuCores),
      MemAvgBytes := Field(r, MemAvgBytes),
      MemPeakBytes := Field(r, MemPeakBytes),
      DiskBytes := Field(r, DiskBytes),
      Instrument := Field(r, Instrument)]
  }

  /** The NOT NULL constraints of the new table. */
  predicate Storable(r: Record) {
    forall c :: c in CURRENT_COLUMNS && c != Id ==> Field(r, c) != Null
  }

  predicate Copyable(t: Table) {
    (forall c :: c in LEGACY_COLUMNS ==> HasColumn(t, c)) && (forall r :: r in t.rows ==> Storable(MigrateRow(r)))
  }

  /** The outcome of a migration that is not interrupted. */
  function Migrated(ts: Tables): Option<Tables> {
    if USAGE in ts && Copyable(ts[USAGE]) then
      Some((ts - {SCRATCH})[USAGE := Table(Map(NameOf, CURRENT_COLUMNS), Map(MigrateRow, ts[USAGE].rows))])
    else None
  }

  datatype Call = ListColumns | Begin | DropScratch | CreateScratch | Copy | DropOld | Rename | Commit

  /** The table can be copied and no call fails; that the scratch table cannot be dropped does not matter when
      there is none. */
  ghost predicate Migrates(ts: Tables, fails: Call -> bool) {
    && Migrated(ts).Some? && !fails(Begin) && !fails(CreateScratch) && !fails(Copy) && !fails(DropOld)
    && !fails(Rename) && !fails(Commit) && (fails(DropScratch) ==> "resource_usage_info_new" !in ts)
  }

  /** What is collected about one run. */
  datatype Usage = Usage(cpuCores: real, memAvgBytes: int, memPeakBytes: int, diskBytes: int)

  datatype UsageInfo = UsageInfo(
    workloadType: string, loadValue: int, retentionDays: int, durationSeconds: int, instrument: string, usage: Usage)

  /** The inserted row; the database supplies the identifier and the time. */
  function ToRecord(info: UsageInfo, id: Value, createdAt: Value): Record {
    map[
      Id := id,
      CreatedAt := createdAt,
      WorkloadType := Text(info.workloadType),
      LoadValue := Number(info.loadValue),
      RetentionDays := Number(info.retentionDays),
      DurationSeconds := Number(info.durationSeconds),
      CpuCores := Float(info.usage.cpuCores),
      MemAvgBytes := Number(info.usage.memAvgBytes),
      MemPeakBytes := Number(info.usage.memPeakBytes),
      DiskBytes := Number(info.usage.diskBytes),
      Instrument := Text(info.instrument)]
  }

  function EmptyTable(): Table {
    Table(Map(NameOf, CURRENT_COLUMNS), [])
  }

  lemma CreatedUpToDate(ts: Tables, rows: seq<Record>)
    ensures UpToDate(ts[USAGE := Table(Map(NameOf, CURRENT_COLUMNS), rows)])
  {
    hide HasColumn;
    CreatedColumns(rows, WorkloadType);
    CreatedColumns(rows, LoadValue);
    CreatedColumns(rows, RetentionDays);
  }

  lemma MigratedUpToDate(ts: Tables, ts': Tables)
    requires Migrated(ts) == Some(ts')
    ensures UpToDate(ts')
  {
    hide HasColumn, Copyable, MigrateRow;
    CreatedUpToDate(ts - {SCRATCH}, Map(MigrateRow, ts[USAGE].rows));
  }

  /** The database with rows added to the measurement table and nothing else changed. */
  function Appended(ts: Tables, added: seq<Record>): Tables
    requires USAGE in ts
  {
    ts[USAGE := ts[USAGE].(rows := ts[USAGE].rows + added)]
  }

  lemma AppendedTwice(ts: Tables, a: seq<Record>, b: seq<Record>)
    requires USAGE in ts
    ensures Appended(ts, []) == ts
    ensures Appended(Appended(ts, a), b) == Appended(ts, a + b)
  {
    var rows := ts[USAGE].rows;
    assert rows + [] == rows && (rows + a) + b == rows + (a + b);
  }

  class Database {
    var tables: Tables

    constructor (ts: Tables)
      ensures tables == ts
    {
      tables := ts;
    }

    method ColumnNames() returns (cols: set<string>)
      ensures forall c :: NameOf(c) in cols <==> USAGE in tables && HasColumn(tables[USAGE], c)
    {
      cols := {};
      if USAGE in tables {
        var t := tables[USAGE];
        for i := 0 to |t.columns|
          invariant forall name :: name in cols <==> name in Map(ToLower, t.columns)[..i]
        {
          cols := cols + {ToLower(t.columns[i])};
        }
        assert Map(ToLower, t.columns)[..|t.columns|] == Map(ToLower, t.columns);
      }
    }

    method CopyRows(t: Table) returns (copied: Option<seq<Record>>)
      ensures copied == if Copyable(t) then Some(Map(MigrateRow, t.rows)) else None
    {
      hide Storable, MigrateRow, HasColumn;
      if exists c :: c in LEGACY_COLUMNS && !HasColumn(t, c) {
        return None;
      }
      var rows: seq<Record> := [];
      for i := 0 to |t.rows|
        invariant rows == Map(MigrateRow, t.rows)[..i]
        invariant forall j :: 0 <= j < i ==> Storable(MigrateRow(t.rows[j]))
      {
        var row := MigrateRow(t.rows[i]);
        if !Storable(row) {
          assert t.rows[i] in t.rows;
          return None;
        }
        rows := rows + [row];
      }
      assert rows == Map(MigrateRow, t.rows);
      copied := Some(rows);
    }

    /** The migration is all or nothing. It succeeds exactly if the table is up to date, or can be copied and no
        call fails that matters. */
    method EnsureMigrated(fails: Call -> bool) returns (ok: bool)
      modifies this
      ensures !ok ==> tables == old(tables)
      ensures ok && UpToDate(old(tables)) ==> tables == old(tables)
      ensures ok && !UpToDate(old(tables)) ==> Migrated(old(tables)) == Some(tables)
      ensures ok <==> !fails(ListColumns) && (UpToDate(old(tables)) || Migrates(old(tables), fails))
    {
      hide HasColumn, Copyable, MigrateRow, NameOf;
      if fails(ListColumns) {
        return false;
      }
      var cols := ColumnNames();
      if NameOf(WorkloadType) in cols && NameOf(LoadValue) in cols && NameOf(RetentionDays) in cols {
        return true;
      }
      if fails(Begin) {
        return false;
      }
      var tx := tables;
      if !fails(DropScratch) {
        tx := tx - {SCRATCH};
      }
      if fails(CreateScratch) || SCRATCH in tx {
        return false;
      }
      tx := tx[SCRATCH := Table(Map(NameOf, CURRENT_COLUMNS), [])];
      if fails(Copy) || USAGE !in tx {
        return false;
      }
      var copied := CopyRows(tx[USAGE]);
      if copied.None? {
        return false;
      }
      tx := tx[SCRATCH := Table(Map(NameOf, CURRENT_COLUMNS), copied.value)];
      if fails(DropOld) {
        return false;
      }
      tx := tx - {USAGE};
      if fails(Rename) {
        return false;
      }
      var renamed := tx[SCRATCH];
      tx := (tx - {SCRATCH})[USAGE := renamed];
      if fails(Commit) {
        return false;
      }
      assert tx == (tables - {SCRATCH})[USAGE := renamed];
      tables := tx;
      ok := true;
    }

    /** Opening creates an empty table where there is none and migrates an old one. A failure changes
        nothing but, at most, leaves the empty table behind. */
    method Open(createFails: bool, fails: Call -> bool) returns (ok: bool)
      modifies this
      ensures ok ==> UpToDate(tables)
      ensures ok && USAGE !in old(tables) ==> tables == old(tables)[USAGE := EmptyTable()]
      ensures ok && UpToDate(old(tables)) ==> tables == old(tables)
      ensures ok && USAGE in old(tables) && !UpToDate(old(tables)) ==> Migrated(old(tables)) == Some(tables)
      ensures USAGE in old(tables) ==> (ok <==>
        !createFails && !fails(ListColumns) && (UpToDate(old(tables)) || Migrates(old(tables), fails)))
      ensures USAGE !in old(tables) ==> (ok <==> !createFails && !fails(ListColumns))
      ensures !ok && USAGE in old(tables) ==> tables == old(tables)
      ensures !ok && USAGE !in old(tables) ==> tables == old(tables) || tables == old(tables)[USAGE := EmptyTable()]
    {
      hide HasColumn, Copyable, MigrateRow;
      if createFails {
        return false;
      }
      CreatedUpToDate(tables, []);
      if USAGE !in tables {
        tables := tables[USAGE := EmptyTable()];
      }
      ghost var created := tables;
      ok := EnsureMigrated(fails);
      if ok && !UpToDate(created) {
        MigratedUpToDate(created, tables);
      }
    }

    /** Appends one row, or fails and changes nothing. */
    method Save(info: UsageInfo, id: Value, createdAt: Value, fails: bool) returns (ok: bool)
      modifies this
      ensures ok <==> !fails && "resource_usage_info" in old(tables)
      ensures !ok ==> tables == old(tables)
      ensures ok ==> tables == Appended(old(tables), [ToRecord(info, id, createdAt)])
    {
      if fails || USAGE !in tables {
        return false;
      }
      var t := tables[USAGE];
      tables := tables[USAGE := t.(rows := t.rows + [ToRecord(info, id, createdAt)])];
      ok := true;
    }
  }

  /** Every field of an inserted row. */
  lemma SavedFields(info: UsageInfo, id: Value, createdAt: Value)
    ensures
      var r := ToRecord(info, id, createdAt);
      && Field(r, Id) == id && Field(r, CreatedAt) == createdAt
      && Field(r, Instrument) == Text(info.instrument) && Field(r, WorkloadType) == Text(info.workloadType)
      && Field(r, LoadValue) == Number(info.loadValue) && Field(r, RetentionDays) == Number(info.retentionDays)
      && Field(r, DurationSeconds) == Number(info.durationSeconds)
      && Field(r, CpuCores) == Float(info.usage.cpuCores) && Field(r, MemAvgBytes) == Number(info.usage.memAvgBytes)
      && Field(r, MemPeakBytes) == Number(info.usage.memPeakBytes)
      && Field(r, DiskBytes) == Number(info.usage.diskBytes)
  {
  }

  /** The table has a column of that name, in whatever case. */
  ghost predicate Has(t: Table, name: string) {
    exists i :: 0 <= i < |t.columns| && ToLower(t.columns[i]) == name
  }

  lemma HasIff(t: Table, c: Column, name: string)
    requires NameOf(c) == name
    ensures HasColumn(t, c) <==> Has(t, name)
  {
    hide ToLower, NameOf;
    var names := Map(ToLower, t.columns);
    if HasColumn(t, c) {
      var k :| 0 <= k < |names| && names[k] == name;
    }
    if i :| 0 <= i < |t.columns| && ToLower(t.columns[i]) == name {
      assert names[i] == name;
    }
  }

  /** The check made before a migration, by column names. */
  lemma UpToDateIff(ts: Tables)
    ensures UpToDate(ts) <==>
      && "resource_usage_info" in ts
      && Has(ts["resource_usage_info"], "workload_type") && Has(ts["resource_usage_info"], "load_value")
      && Has(ts["resource_usage_info"], "retention_days")
  {
    hide HasColumn, Has;
    if USAGE in ts {
      HasIff(ts[USAGE], WorkloadType, "workload_type");
      HasIff(ts[USAGE], LoadValue, "load_value");
      HasIff(ts[USAGE], RetentionDays, "retention_days");
    }
  }

  /** No measurement, no instrument and no time is missing. */
  ghost predicate Complete(r: Record) {
    && Field(r, CreatedAt) != Null && Field(r, Series) != Null && Field(r, DurationSeconds) != Null
    && Field(r, CpuCores) != Null && Field(r, MemAvgBytes) != Null && Field(r, MemPeakBytes) != Null
    && Field(r, DiskBytes) != Null && Field(r, Instrument) != Null
  }

  /** What an old table needs to be copied: nine columns, by name, and complete rows. */
  lemma CopyableIff(t: Table)
    ensures Copyable(t) <==>
      && Has(t, "id") && Has(t, "created_at") && Has(t, "series") && Has(t, "duration_seconds")
      && Has(t, "cpu_cores") && Has(t, "mem_avg_bytes") && Has(t, "mem_peak_bytes") && Has(t, "disk_bytes")
      && Has(t, "instrument") && forall r :: r in t.rows ==> Complete(r)
  {
    hide HasColumn, Has, MigrateRow, Complete, Storable;
    HasIff(t, Id, "id");
    HasIff(t, CreatedAt, "created_at");
    HasIff(t, Series, "series");
    HasIff(t, DurationSeconds, "duration_seconds");
    HasIff(t, CpuCores, "cpu_cores");
    HasIff(t, MemAvgBytes, "mem_avg_bytes");
    HasIff(t, MemPeakBytes, "mem_peak_bytes");
    HasIff(t, DiskBytes, "disk_bytes");
    HasIff(t, Instrument, "instrument");
    forall r ensures Storable(MigrateRow(r)) <==> Complete(r) {
      StorableIff(r);
    }
  }

  lemma StorableIff(r: Record)
    ensures Storable(MigrateRow(r)) <==> Complete(r)
  {
    hide MigrateRow, Field;
    var m := MigrateRow(r);
    if Storable(m) {
      StoredField(r, CreatedAt);
      StoredField(r, LoadValue);
      StoredField(r, DurationSeconds);
      StoredField(r, CpuCores);
      StoredField(r, MemAvgBytes);
      StoredField(r, MemPeakBytes);
      StoredField(r, DiskBytes);
      StoredField(r, Instrument);
    }
    if Complete(r) {
      forall c | c in CURRENT_COLUMNS && c != Id ensures Field(m, c) != Null {
        MigratedField(r, c);
      }
    }
  }

  lemma StoredField(r: Record, c: Column)
    requires Storable(MigrateRow(r)) && c in CURRENT_COLUMNS && c != Id && c != WorkloadType && c != RetentionDays
    ensures Field(r, if c == LoadValue then Series else c) != Null
  {
    hide MigrateRow, Field;
    MigratedField(r, c);
  }

  lemma MigratedField(r: Record, c: Column)
    requires c in CURRENT_COLUMNS
    ensures Field(MigrateRow(r), c) == if c == LoadValue then Field(r, Series)
      else if c == WorkloadType then WorkloadOf(Field(r, Instrument))
      else if c == RetentionDays then Number(7)
      else Field(r, c)
  {
    hide MigrateRow, Field, WorkloadOf;
    FieldsSet(r);
    if c != LoadValue && c != WorkloadType && c != RetentionDays {
      FieldKept(r, c);
    }
  }

  /** The workload type agrees with the instrument. */
  ghost predicate WellTagged(r: Record) {
    match Field(r, Instrument)
    case Text(i) => Field(r, WorkloadType) == Text(if i in ["loki", "opensearch"] then "logs" else "metrics")
    case _ => false
  }

  lemma CreatedColumns(rows: seq<Record>, c: Column)
    requires c in CURRENT_COLUMNS
    ensures HasColumn(Table(Map(NameOf, CURRENT_COLUMNS), rows), c)
  {
    var names := Map(NameOf, CURRENT_COLUMNS);
    var k :| 0 <= k < |CURRENT_COLUMNS| && CURRENT_COLUMNS[k] == c;
    NamesLower(c);
    assert Map(ToLower, names)[k] == NameOf(c);
  }

  ghost predicate NoCapitals(s: string) {
    forall i :: 0 <= i < |s| ==> !('A' <= s[i] <= 'Z')
  }

  lemma NamesHaveNoCapitals(c: Column)
    ensures NoCapitals(NameOf(c))
  {
    match c
    case _ =>
  }

  lemma NamesLower(c: Column)
    ensures ToLower(NameOf(c)) == NameOf(c)
  {
    NamesHaveNoCapitals(c);
    hide NameOf;
    var s := NameOf(c);
    assert forall i :: 0 <= i < |s| ==> LowerChar(s[i]) == s[i];
  }

  /** A migrated database is up to date, so migrating again changes nothing; it keeps every other table,
      and every row with its identity, instrument and measurements, in order. */
  lemma MigrationConserves(ts: Tables, ts': Tables, name: string, i: nat)
    requires Migrated(ts) == Some(ts')
    ensures UpToDate(ts') && SCRATCH !in ts'
    ensures name != USAGE && name != SCRATCH ==>
      (name in ts <==> name in ts') && (name in ts ==> ts[name] == ts'[name])
    ensures |ts'[USAGE].rows| == |ts[USAGE].rows|
    ensures i < |ts[USAGE].rows| ==> RowConserved(ts[USAGE].rows[i], ts'[USAGE].rows[i])
  {
    hide HasColumn, Copyable, MigrateRow, NameOf;
    MigratedUpToDate(ts, ts');
    if i < |ts[USAGE].rows| {
      RowMigration(ts[USAGE].rows[i]);
    }
  }

  ghost predicate RowConserved(r: Record, r': Record) {
    && (forall c :: c in LEGACY_COLUMNS && c != Series ==> Field(r', c) == Field(r, c))
    && Field(r', LoadValue) == Field(r, Series)
    && Field(r', RetentionDays) == Number(7)
    && (Field(r, Instrument).Text? ==> WellTagged(r'))
  }

  lemma FieldKept(r: Record, c: Column)
    requires c != Series && c != WorkloadType && c != LoadValue && c != RetentionDays
    ensures Field(MigrateRow(r), c) == Field(r, c)
  {
  }

  lemma FieldsSet(r: Record)
    ensures Field(MigrateRow(r), LoadValue) == Field(r, Series)
    ensures Field(MigrateRow(r), RetentionDays) == Number(7)
    ensures Field(MigrateRow(r), WorkloadType) == WorkloadOf(Field(r, Instrument))
  {
  }

  lemma RowMigration(r: Record)
    ensures RowConserved(r, MigrateRow(r))
  {
    hide MigrateRow, Field;
    FieldsSet(r);
    FieldKept(r, Instrument);
    forall c | c in LEGACY_COLUMNS && c != Series ensures Field(MigrateRow(r), c) == Field(r, c) {
      FieldKept(r, c);
    }
  }
}
