/**
 * What a `Sheet` of mimic/utils/sheet.py does to the database and the file
 * system: `__init__` drops (optionally) and creates its table and loads its
 * scalers; `load_csv` either re-inserts the cached transformed CSV or reads
 * the source CSV, checks the id column, runs the transform and the scalers,
 * writes the cache and inserts it.
 *
 * The effects are stated twice: as functions from the files on disk to the
 * statements sent, the files afterwards and the error raised (`InitRun`,
 * `LoadRun`), and as methods that perform the same steps on a
 * `Storage.Backend` and are proved to agree with those functions. The lemmas
 * are about the functions.
 */
module SheetLoading {
  import opened Wrappers
  import opened Text
  import opened Storage
  import opened Sheets

  // ---------------------------------------------------------------------
  // Paths and statements

  /** The raw CSV: the sheet's file name directly under its root. */
  function SourcePath(sheet: Sheet): string
  {
    sheet.root + "/" + sheet.fileName
  }

  /** The cached transformed CSV: the same file name in the root's `transformed` directory. */
  function CachePath(sheet: Sheet): string
  {
    sheet.root + "/transformed/" + sheet.fileName
  }

  /** Where `Scaler.save` / `Scaler.load` keep a scaler: one file per scaler class. */
  function ScalerPath(root: string, kind: string): string
  {
    root + "/scaler/" + kind + ".bin"
  }

  /** A saved scaler never lands on the cached CSV: the two directories differ. */
  lemma ScalerPathNotCache(sheet: Sheet, kind: string)
    ensures ScalerPath(sheet.root, kind) != CachePath(sheet)
  {
    var n := |sheet.root| + 1;
    assert ScalerPath(sheet.root, kind)[n] == 's';
    assert CachePath(sheet)[n] == 't';
  }

  // ---------------------------------------------------------------------
  // Construction

  /**
   * The sheet `Sheet.__init__` builds (lines 25-39): the settings as given,
   * with the persisted schema defaulting to the ingest schema.
   */
  function NewSheet(root: string, tableName: string, fileName: string, columns: seq<(string, string)>,
                    idColumn: string, scaler: Option<seq<Scaler>> := None,
                    tableFields: Option<seq<(string, string)>> := None, transform: Option<Transform> := None,
                    dropTable: bool := true, forceInsert: bool := false): (s: Sheet)
    ensures s.root == root && s.tableName == tableName && s.fileName == fileName
    ensures s.columns == columns && s.idColumn == idColumn && s.scaler == scaler
    ensures s.transform == transform && s.dropTable == dropTable && s.forceInsert == forceInsert
    ensures tableFields.None? ==> s.tableFields == columns
    ensures tableFields.Some? ==> s.tableFields == tableFields.value
  {
    var fields := if tableFields.None? then columns else tableFields.value;
    Sheet(root, tableName, fileName, columns, idColumn, scaler, fields, transform, dropTable, forceInsert)
  }

  /**
   * The rest of `__init__` (lines 45-49): DROP when `drop_table` is set, then
   * CREATE, then `_load_scalers`, which iterates the scaler list and so raises
   * a TypeError when there is none.
   */
  function InitRun(sheet: Sheet, files: map<string, File>): Run
  {
    var statements := (if sheet.dropTable then [Executed(DropTableStatement(sheet))] else [])
      + [Executed(CreateTableStatement(sheet))];
    Run(statements, files, if sheet.scaler.None? then Some(ScalersNotIterable) else None)
  }

  /**
   * Construction sends DROP (when asked) strictly before CREATE, creates the
   * table with the persisted schema, never touches the files, and fails
   * exactly when no scaler list was given.
   */
  lemma InitOrder(sheet: Sheet, files: map<string, File>)
    ensures var run := InitRun(sheet, files);
      && |run.statements| == (if sheet.dropTable then 2 else 1)
      && run.statements[|run.statements| - 1] == CreateTableStatement(sheet) + ";"
      && (sheet.dropTable ==> run.statements[0] == DropTableStatement(sheet) + ";")
      && run.files == files
      && (run.error.Some? <==> sheet.scaler.None?)
  {
    assert JoinWith(" ", [CreateTableStatement(sheet)]) == CreateTableStatement(sheet);
    assert JoinWith(" ", [DropTableStatement(sheet)]) == DropTableStatement(sheet);
  }

  /**
   * With the default arguments (no scaler list) construction raises after the
   * table has already been dropped and re-created, and the table's schema is
   * the ingest schema.
   */
  lemma DefaultConstructionFails(root: string, tableName: string, fileName: string,
                                 columns: seq<(string, string)>, idColumn: string, files: map<string, File>)
    ensures var sheet := NewSheet(root, tableName, fileName, columns, idColumn);
      && sheet.tableFields == columns
      && InitRun(sheet, files).error == Some(ScalersNotIterable)
      && InitRun(sheet, files).statements
         == [DropTableStatement(sheet) + ";", CreateTableStatement(sheet) + ";"]
  {
    var sheet := NewSheet(root, tableName, fileName, columns, idColumn);
    InitOrder(sheet, files);
  }

  /** `Sheet.__init__`: the sheet when construction completes, the error otherwise. */
  method Construct(root: string, tableName: string, fileName: string, columns: seq<(string, string)>,
                   idColumn: string, scaler: Option<seq<Scaler>>, tableFields: Option<seq<(string, string)>>,
                   transform: Option<Transform>, dropTable: bool, forceInsert: bool, backend: Backend)
    returns (r: Result<Sheet, LoadError>)
    modifies backend
    ensures var sheet := NewSheet(root, tableName, fileName, columns, idColumn, scaler, tableFields,
                                  transform, dropTable, forceInsert);
      var run := InitRun(sheet, old(backend.files));
      && backend.log == old(backend.log) + run.statements
      && backend.files == run.files
      && (run.error.None? ==> r == Success(sheet))
      && (run.error.Some? ==> r == Failure(run.error.value))
  {
    var sheet := NewSheet(root, tableName, fileName, columns, idColumn, scaler, tableFields,
                          transform, dropTable, forceInsert);
    ghost var log0 := backend.log;
    ghost var drops := if sheet.dropTable then [Executed(DropTableStatement(sheet))] else [];
    if sheet.dropTable {
      var drop := SheetQuery.DropTable(sheet);
      backend.Exec(drop.Parse());
    }
    assert backend.log == log0 + drops;
    var create := SheetQuery.CreateTable(sheet);
    backend.Exec(create.Parse());
    assert backend.log == log0 + (drops + [Executed(CreateTableStatement(sheet))]);
    // _load_scalers: `for s in self.scaler` over None raises; each `s.load`
    // only replaces a scaler's fitted statistics, which are not modelled.
    if sheet.scaler.None? {
      return Failure(ScalersNotIterable);
    }
    return Success(sheet);
  }

  // ---------------------------------------------------------------------
  // Loading, as functions of the files on disk

  /**
   * The loop of `_transform_data` over the scalers, in list order: each one
   * checks its columns (`fit`), then is written to its file (`save`). The
   * first check that fails stops the loop; files saved before it stay.
   */
  function FitScalers(root: string, scalers: seq<Scaler>, df: Frame, files: map<string, File>)
    : (map<string, File>, Option<LoadError>)
    decreases |scalers|
  {
    if |scalers| == 0 then (files, None)
    else
      var prev := FitScalers(root, scalers[..|scalers| - 1], df, files);
      var s := scalers[|scalers| - 1];
      var missing := MissingColumns(s.transformColumns, df);
      if prev.1.Some? then prev
      else if |missing| > 0 then (prev.0, Some(MissingScalerColumns(s.kind, missing)))
      else (prev.0[ScalerPath(root, s.kind) := FittedScaler(s)], None)
  }

  /** Once a scaler's check has failed, the later ones are not reached. */
  lemma {:induction false} FitStops(root: string, scalers: seq<Scaler>, i: nat, df: Frame, files: map<string, File>)
    requires i <= |scalers|
    requires FitScalers(root, scalers[..i], df, files).1.Some?
    ensures FitScalers(root, scalers, df, files) == FitScalers(root, scalers[..i], df, files)
    decreases |scalers|
  {
    if i < |scalers| {
      var init := scalers[..|scalers| - 1];
      assert init[..i] == scalers[..i];
      FitStops(root, init, i, df, files);
    } else {
      assert scalers[..i] == scalers;
    }
  }

  /**
   * Fitting fails exactly when some scaler misses one of its columns, and
   * then with that scaler's column error.
   */
  lemma {:induction false} FitFailsIff(root: string, scalers: seq<Scaler>, df: Frame, files: map<string, File>)
    ensures var err := FitScalers(root, scalers, df, files).1;
      && (err.None? <==> AllFit(scalers, df))
      && (err.Some? ==> err.value.MissingScalerColumns?)
    decreases |scalers|
  {
    if |scalers| > 0 {
      FitFailsIff(root, scalers[..|scalers| - 1], df, files);
      AllFitLast(scalers, df);
    }
  }

  /** Two scaler classes share a file only when they are the same class. */
  lemma ScalerPathInjective(root: string, k1: string, k2: string)
    requires ScalerPath(root, k1) == ScalerPath(root, k2)
    ensures k1 == k2
  {
    var n := |root| + 8;
    assert |k1| == |k2|;
    assert ScalerPath(root, k1)[n..n + |k1|] == k1;
    assert ScalerPath(root, k2)[n..n + |k2|] == k2;
  }

  /** After a successful fit, every scaler's file holds a fitted scaler of its class. */
  lemma {:induction false} FitSavesEach(root: string, scalers: seq<Scaler>, df: Frame, files: map<string, File>)
    requires FitScalers(root, scalers, df, files).1.None?
    ensures var out := FitScalers(root, scalers, df, files).0;
      forall k :: 0 <= k < |scalers| ==>
        ScalerPath(root, scalers[k].kind) in out && out[ScalerPath(root, scalers[k].kind)].FittedScaler?
        && out[ScalerPath(root, scalers[k].kind)].scaler.kind == scalers[k].kind
    decreases |scalers|
  {
    if |scalers| > 0 {
      var init := scalers[..|scalers| - 1];
      FitSavesEach(root, init, df, files);
      var out := FitScalers(root, scalers, df, files).0;
      forall k | 0 <= k < |init|
        ensures ScalerPath(root, scalers[k].kind) in out && out[ScalerPath(root, scalers[k].kind)].FittedScaler?
          && out[ScalerPath(root, scalers[k].kind)].scaler.kind == scalers[k].kind
      {
        assert scalers[k] == init[k];
        var last := scalers[|scalers| - 1];
        if ScalerPath(root, scalers[k].kind) == ScalerPath(root, last.kind) {
          ScalerPathInjective(root, scalers[k].kind, last.kind);
        }
      }
    }
  }

  /** Fitting removes no file and writes nothing but the scalers' own files. */
  lemma {:induction false} FitWritesOnlyScalers(root: string, scalers: seq<Scaler>, df: Frame, files: map<string, File>)
    ensures var out := FitScalers(root, scalers, df, files).0;
      && files.Keys <= out.Keys
      && forall p :: p in out && (p !in files || out[p] != files[p]) ==>
           exists k :: 0 <= k < |scalers| && p == ScalerPath(root, scalers[k].kind)
    decreases |scalers|
  {
    if |scalers| > 0 {
      var init := scalers[..|scalers| - 1];
      var last := scalers[|scalers| - 1];
      FitWritesOnlyScalers(root, init, df, files);
      var out := FitScalers(root, scalers, df, files).0;
      forall p | p in out && (p !in files || out[p] != files[p])
        ensures exists k :: 0 <= k < |scalers| && p == ScalerPath(root, scalers[k].kind)
      {
        if p != ScalerPath(root, last.kind) {
          var k :| 0 <= k < |init| && p == ScalerPath(root, init[k].kind);
          assert scalers[k] == init[k];
        }
      }
    }
  }

  /** What `_transform_data` returns and leaves on disk. */
  datatype Transformed = Transformed(frame: Frame, files: map<string, File>, error: Option<LoadError>)

  /**
   * `_transform_data` (lines 67-78): the transform callback, when there is
   * one; then, when there is a scaler list, each scaler is fitted and saved.
   * The fitted scalers are never applied: the returned frame is the
   * transform's output.
   */
  function TransformRun(sheet: Sheet, df: Frame, files: map<string, File>): (t: Transformed)
    ensures t.frame == ApplyTransform(sheet.transform, df)
    ensures sheet.scaler.None? ==> t.files == files && t.error.None?
  {
    var out := ApplyTransform(sheet.transform, df);
    if sheet.scaler.None? then Transformed(out, files, None)
    else
      var (saved, err) := FitScalers(sheet.root, sheet.scaler.value, out, files);
      Transformed(out, saved, err)
  }

  /**
   * `load_csv` (lines 80-103). When the cached CSV exists and `force_insert`
   * is off, COPY it when `drop_table` is set and stop. Otherwise read the
   * source, require the id column, transform, keep the persisted fields,
   * write the cache and COPY it.
   */
  function LoadRun(sheet: Sheet, files: map<string, File>): Run
  {
    var cache := CachePath(sheet);
    if cache in files && !sheet.forceInsert then
      Run(if sheet.dropTable then [Executed(CopyCsvStatement(sheet, cache))] else [], files, None)
    else
      match ReadCsv(files, SourcePath(sheet), sheet.columns)
      case Failure(e) => Run([], files, Some(e))
      case Success(df) =>
        if sheet.idColumn !in df.columns then Run([], files, Some(MissingIdColumn(sheet.idColumn)))
        else
          var t := TransformRun(sheet, df, files);
          if t.error.Some? then Run([], t.files, t.error)
          else if !(Keys(sheet.tableFields) <= t.frame.columns) then Run([], t.files, Some(MissingTableFields))
          else
            Run([Executed(CopyCsvStatement(sheet, cache))],
                t.files[cache := Csv(Frame(Keys(sheet.tableFields), t.frame.applied))], None)
  }

  /** Whether `load_csv` takes the cached path. */
  predicate Cached(sheet: Sheet, files: map<string, File>)
  {
    CachePath(sheet) in files && !sheet.forceInsert
  }

  /**
   * A cached CSV without `force_insert`: the source is not read, nothing is
   * written, and the only statement is the COPY of the cache, sent only when
   * `drop_table` is set.
   */
  lemma LoadFromCache(sheet: Sheet, files: map<string, File>)
    requires Cached(sheet, files)
    ensures var run := LoadRun(sheet, files);
      && run.files == files && run.error.None?
      && |run.statements| == (if sheet.dropTable then 1 else 0)
      && (sheet.dropTable ==> run.statements[0] == CopyCsvStatement(sheet, CachePath(sheet)) + ";")
  {
    assert JoinWith(" ", [CopyCsvStatement(sheet, CachePath(sheet))]) == CopyCsvStatement(sheet, CachePath(sheet));
  }

  /**
   * On the source path, the load fails with the id-column error exactly when
   * the id column is not among the columns read.
   */
  lemma MissingIdColumnIff(sheet: Sheet, files: map<string, File>)
    requires !Cached(sheet, files)
    requires ReadCsv(files, SourcePath(sheet), sheet.columns).Success?
    ensures LoadRun(sheet, files).error == Some(MissingIdColumn(sheet.idColumn))
            <==> sheet.idColumn !in Keys(sheet.columns)
  {
    var t := TransformRun(sheet, ReadCsv(files, SourcePath(sheet), sheet.columns).value, files);
    if sheet.scaler.Some? {
      FitFailsIff(sheet.root, sheet.scaler.value, t.frame, files);
    }
  }

  /**
   * A load that fails inserts nothing and leaves the cached CSV as it was;
   * only scaler files saved before the failure may have changed.
   */
  lemma FailedLoadInsertsNothing(sheet: Sheet, files: map<string, File>)
    requires LoadRun(sheet, files).error.Some?
    ensures var run := LoadRun(sheet, files);
      && run.statements == []
      && (CachePath(sheet) in run.files <==> CachePath(sheet) in files)
      && (CachePath(sheet) in files ==> run.files[CachePath(sheet)] == files[CachePath(sheet)])
  {
    var cache := CachePath(sheet);
    var run := LoadRun(sheet, files);
    if run.files != files {
      var df := ReadCsv(files, SourcePath(sheet), sheet.columns).value;
      var out := ApplyTransform(sheet.transform, df);
      var scalers := sheet.scaler.value;
      FitWritesOnlyScalers(sheet.root, scalers, out, files);
      assert run.files == FitScalers(sheet.root, scalers, out, files).0;
      if cache in run.files && (cache !in files || run.files[cache] != files[cache]) {
        var k :| 0 <= k < |scalers| && cache == ScalerPath(sheet.root, scalers[k].kind);
        ScalerPathNotCache(sheet, scalers[k].kind);
      }
    }
  }

  /**
   * A load from the source that succeeds sends exactly one COPY of the cache;
   * the cache holds the persisted fields of the transform's output, and no
   * scaler is among the steps applied to it, although every scaler has been
   * fitted and saved.
   */
  lemma LoadFromSource(sheet: Sheet, files: map<string, File>)
    requires !Cached(sheet, files)
    requires LoadRun(sheet, files).error.None?
    ensures var run := LoadRun(sheet, files);
      var src := files[SourcePath(sheet)].frame;
      && SourcePath(sheet) in files && files[SourcePath(sheet)].Csv?
      && run.statements == [Executed(CopyCsvStatement(sheet, CachePath(sheet)))]
      && CachePath(sheet) in run.files
      && run.files[CachePath(sheet)]
         == Csv(Frame(Keys(sheet.tableFields),
                      src.applied + (if sheet.transform.Some? then [sheet.transform.value.name] else [])))
      && (sheet.scaler.Some? ==> forall k :: 0 <= k < |sheet.scaler.value| ==>
            ScalerPath(sheet.root, sheet.scaler.value[k].kind) in run.files
            && run.files[ScalerPath(sheet.root, sheet.scaler.value[k].kind)].FittedScaler?)
  {
    var df := ReadCsv(files, SourcePath(sheet), sheet.columns).value;
    var out := ApplyTransform(sheet.transform, df);
    if sheet.scaler.Some? {
      var scalers := sheet.scaler.value;
      FitSavesEach(sheet.root, scalers, out, files);
      var saved := FitScalers(sheet.root, scalers, out, files).0;
      forall k | 0 <= k < |scalers|
        ensures ScalerPath(sheet.root, scalers[k].kind) in LoadRun(sheet, files).files
          && LoadRun(sheet, files).files[ScalerPath(sheet.root, scalers[k].kind)].FittedScaler?
      {
        ScalerPathNotCache(sheet, scalers[k].kind);
      }
    }
  }

  /**
   * Loading again after a successful load (without `force_insert`) takes the
   * cached path: no new file, no read, only the COPY when `drop_table` is set.
   */
  lemma LoadTwice(sheet: Sheet, files: map<string, File>)
    requires !sheet.forceInsert
    requires LoadRun(sheet, files).error.None?
    ensures var first := LoadRun(sheet, files);
      LoadRun(sheet, first.files)
        == Run(if sheet.dropTable then [Executed(CopyCsvStatement(sheet, CachePath(sheet)))] else [],
               first.files, None)
  {
    var first := LoadRun(sheet, files);
    if !Cached(sheet, files) {
      LoadFromSource(sheet, files);
    }
    assert CachePath(sheet) in first.files;
  }

  // ---------------------------------------------------------------------
  // Loading, performed on the backend

  /** `_insert_data`: COPY the CSV at `csvPath` into the table. */
  method InsertData(sheet: Sheet, csvPath: string, backend: Backend)
    modifies backend
    ensures backend.log == old(backend.log) + [Executed(CopyCsvStatement(sheet, csvPath))]
    ensures backend.files == old(backend.files)
  {
    var q := SheetQuery.CopyCsv(sheet, csvPath);
    backend.Exec(q.Parse());
  }

  /** `_transform_data`, saving the fitted scalers through the backend. */
  method TransformData(sheet: Sheet, df: Frame, backend: Backend) returns (r: Frame, err: Option<LoadError>)
    modifies backend
    ensures var t := TransformRun(sheet, df, old(backend.files));
      r == t.frame && err == t.error && backend.files == t.files
    ensures backend.log == old(backend.log)
  {
    r := df;
    if sheet.transform.Some? {
      r := ApplyTransform(sheet.transform, r);
    }
    if sheet.scaler.None? {
      return r, None;
    }
    var scalers := sheet.scaler.value;
    ghost var files0 := backend.files;
    for i := 0 to |scalers|
      invariant FitScalers(sheet.root, scalers[..i], r, files0) == (backend.files, None)
      invariant backend.log == old(backend.log)
    {
      assert scalers[..i + 1][..i] == scalers[..i];
      var missing := MissingColumns(scalers[i].transformColumns, r);
      if |missing| > 0 {
        err := Some(MissingScalerColumns(scalers[i].kind, missing));
        FitStops(sheet.root, scalers, i + 1, r, files0);
        return r, err;
      }
      backend.Write(ScalerPath(sheet.root, scalers[i].kind), FittedScaler(scalers[i]));
    }
    assert scalers[..|scalers|] == scalers;
    return r, None;
  }

  /** `load_csv`, performed step by step on the backend. */
  method LoadCsv(sheet: Sheet, backend: Backend) returns (err: Option<LoadError>)
    modifies backend
    ensures var run := LoadRun(sheet, old(backend.files));
      && backend.log == old(backend.log) + run.statements
      && backend.files == run.files
      && err == run.error
  {
    var csvPath := CachePath(sheet);
    if csvPath in backend.files && !sheet.forceInsert {
      if sheet.dropTable {
        InsertData(sheet, csvPath, backend);
      }
      return None;
    }
    var read := ReadCsv(backend.files, SourcePath(sheet), sheet.columns);
    if read.Failure? {
      return Some(read.error);
    }
    var df := read.value;
    if sheet.idColumn !in df.columns {
      return Some(MissingIdColumn(sheet.idColumn));
    }
    var out, e := TransformData(sheet, df, backend);
    if e.Some? {
      return e;
    }
    var fields := Keys(sheet.tableFields);
    if !(fields <= out.columns) {
      return Some(MissingTableFields);
    }
    backend.Write(csvPath, Csv(Frame(fields, out.applied)));
    InsertData(sheet, csvPath, backend);
    return None;
  }
}
