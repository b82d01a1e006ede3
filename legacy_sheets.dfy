/**
 * The older statement builder and loader of utils/sheet.py.
 *
 * Its `SheetQuery` keeps the same state (one list of fragments) and the same
 * `_add_query` / `parse`, but builds its statements differently: `find_by_id`
 * always opens a fresh WHERE and does not quote the ids, `find_by_row_id`
 * leaves a single fragment, `join` takes two sheets and a mode, `count`
 * always counts all rows, and no column name is parsed. Its `Sheet` has no
 * scaler files: `load_csv` applies each scaler to the frame, in list order,
 * and writes the whole frame to the cache.
 *
 * The fragment-list functions shared with the newer builder (`AddFragment`,
 * `ParseFragments`, the WHERE predicates) are those of module Sheets, and
 * several lemmas relate the two snapshots.
 */
module LegacySheets {
  import opened Wrappers
  import opened Text
  import opened Storage
  import Sheets

  /** One ingested table of the older snapshot (Sheet.__init__, lines 10-36). */
  datatype Sheet = Sheet(
    root: string,
    tableName: string,
    columns: seq<(string, string)>,
    idColumn: string,
    scaler: Option<seq<Scaler>>,
    tableFields: seq<(string, string)>,
    transform: Option<Transform>,
    dropTable: bool,
    forceInsert: bool)

  // ---------------------------------------------------------------------
  // Statements

  /** `find_by_row_id`: the whole query as a subquery, filtered by row number, in one fragment. */
  function FindByRowIdFragment(fragments: seq<string>, rowIds: seq<int>): string
  {
    "SELECT * FROM (" + JoinWith(" ", fragments) + ") WHERE row_num IN ("
      + JoinWith(", ", Sheets.IntStrings(rowIds)) + ")"
  }

  /** `find_by_id`: always a WHERE, the ids listed as given. */
  function FindByIdFragment(columnId: string, ids: seq<string>): string
  {
    "WHERE " + columnId + " IN (" + JoinWith(", ", ids) + ")"
  }

  function FindByIdQuery(fragments: seq<string>, columnId: string, ids: seq<string>): seq<string>
  {
    Sheets.AddFragment(fragments, [FindByIdFragment(columnId, ids)])
  }

  /** `join`: `<MODE> JOIN <right table>`, with an ON clause on the id columns for left and right joins only. */
  function JoinParts(lSheet: Sheet, rSheet: Sheet, mode: Sheets.JoinMode): seq<string>
  {
    [Upper(mode.Literal()) + " JOIN " + rSheet.tableName]
      + (if mode == Sheets.Left || mode == Sheets.Right then
           ["ON " + lSheet.tableName + "." + lSheet.idColumn + "=" + rSheet.tableName + "." + rSheet.idColumn]
         else [])
  }

  /** `select`: a list of columns is comma-joined as it is. */
  function SelectStatement(sheet: Sheet, columns: Sheets.Columns): string
  {
    var cols := match columns
      case Raw(text) => text
      case List(names) => JoinWith(",", names);
    Sheets.SelectPrefix + cols + " FROM " + sheet.tableName
  }

  function CountStatement(sheet: Sheet): string
  {
    "SELECT COUNT(*) FROM " + sheet.tableName
  }

  function FieldDefinitions(fields: seq<(string, string)>): seq<string>
  {
    seq(|fields|, i requires 0 <= i < |fields| => fields[i].0 + " " + fields[i].1)
  }

  /** `create_table`: `name type` per persisted field, joined by ", ". */
  function CreateTableStatement(sheet: Sheet): string
  {
    "CREATE TABLE IF NOT EXISTS " + sheet.tableName + " (" + JoinWith(", ", FieldDefinitions(sheet.tableFields)) + ")"
  }

  function DropTableStatement(sheet: Sheet): string
  {
    "DROP TABLE IF EXISTS " + sheet.tableName
  }

  function CopyCsvStatement(sheet: Sheet, csvPath: string): string
  {
    "COPY " + sheet.tableName + " FROM '" + csvPath + "' (FORMAT CSV, HEADER TRUE)"
  }

  // ---------------------------------------------------------------------
  // Lemmas about the statements

  /**
   * `find_by_id` appends one fragment that opens a WHERE, whatever the query
   * already holds, and lists the ids unquoted.
   */
  lemma FindByIdAlwaysWhere(fragments: seq<string>, columnId: string, ids: seq<string>)
    ensures FindByIdQuery(fragments, columnId, ids)
      == fragments + ["WHERE " + columnId + " IN (" + JoinWith(", ", ids) + ")"]
    ensures Sheets.IsWhereFragment(FindByIdQuery(fragments, columnId, ids)[|fragments|])
    ensures Sheets.ContainsWhere(FindByIdQuery(fragments, columnId, ids))
  {
    var f := FindByIdFragment(columnId, ids);
    assert JoinWith(" ", [f]) == f;
    Sheets.WhereOpens(f);
    Sheets.AppendFragment(fragments, f);
  }

  /**
   * Calling `find_by_id` on a query that already filters gives a statement
   * with two WHERE fragments: nothing keeps the one-WHERE invariant that the
   * newer snapshot's `find_by_id` keeps (Sheets.FindByIdClause).
   */
  lemma FindByIdAfterWhere(fragments: seq<string>, columnId: string, ids: seq<string>)
    requires Sheets.ContainsWhere(fragments)
    ensures !Sheets.AtMostOneWhere(FindByIdQuery(fragments, columnId, ids))
  {
    FindByIdAlwaysWhere(fragments, columnId, ids);
    var r := FindByIdQuery(fragments, columnId, ids);
    var i :| 0 <= i < |fragments| && Sheets.IsWhereFragment(fragments[i]);
    assert r[i] == fragments[i];
  }

  /** Two chained `find_by_id` calls always leave two WHERE fragments. */
  lemma FindByIdTwice(fragments: seq<string>, columnId: string, ids: seq<string>, moreIds: seq<string>)
    ensures !Sheets.AtMostOneWhere(FindByIdQuery(FindByIdQuery(fragments, columnId, ids), columnId, moreIds))
  {
    FindByIdAlwaysWhere(fragments, columnId, ids);
    FindByIdAfterWhere(FindByIdQuery(fragments, columnId, ids), columnId, moreIds);
  }

  /**
   * For one row id the older single-fragment `find_by_row_id` executes the
   * same statement as the newer two-fragment one; they differ only in the
   * separator between several ids (", " here, "," there).
   */
  lemma FindByRowIdMatchesNewer(fragments: seq<string>, rowIds: seq<int>)
    requires |rowIds| <= 1
    ensures Sheets.ParseFragments([FindByRowIdFragment(fragments, rowIds)])
         == Sheets.ParseFragments(Sheets.FindByRowIdQuery(fragments, rowIds))
  {
    Sheets.FindByRowIdShape(fragments, rowIds);
    var sub := Sheets.Subquery(fragments);
    var cond := "WHERE " + Sheets.RowIdCondition(rowIds);
    var frag := FindByRowIdFragment(fragments, rowIds);
    assert frag == sub + " " + cond by {
      ShortListSeparator(Sheets.IntStrings(rowIds), ", ", [',']);
      SubqueryThenWhere(JoinWith(" ", fragments), Sheets.RowIdList(rowIds));
    }
    assert JoinWith(" ", [sub, cond]) == sub + " " + cond by {
      assert [sub, cond][..1] == [sub];
    }
    assert JoinWith(" ", [frag]) == frag;
  }

  /** The one-fragment filter reads as the subquery, a space, and the WHERE fragment. */
  lemma SubqueryThenWhere(query: string, list: string)
    ensures "SELECT * FROM (" + query + ") WHERE row_num IN (" + list + ")"
         == ("SELECT * FROM (" + query + ")") + " " + ("WHERE " + ("row_num IN (" + list + ")"))
  {
    assert ") WHERE row_num IN (" == ")" + " " + "WHERE " + "row_num IN (";
  }

  /** The separator of a join matters only from two parts on. */
  lemma ShortListSeparator(parts: seq<string>, sep1: string, sep2: string)
    requires |parts| <= 1
    ensures JoinWith(sep1, parts) == JoinWith(sep2, parts)
  {
  }

  /**
   * `join` adds an ON clause exactly for left and right joins; every mode
   * starts with the upper-cased mode and the right sheet's table.
   */
  lemma JoinOnlyLeftRightHaveOn(lSheet: Sheet, rSheet: Sheet, mode: Sheets.JoinMode)
    ensures |JoinParts(lSheet, rSheet, mode)| == 2 <==> mode == Sheets.Left || mode == Sheets.Right
    ensures |JoinParts(lSheet, rSheet, mode)| >= 1
    ensures JoinParts(lSheet, rSheet, mode)[0] == Upper(mode.Literal()) + " JOIN " + rSheet.tableName
    ensures mode != Sheets.Left && mode != Sheets.Right ==>
      JoinWith(" ", JoinParts(lSheet, rSheet, mode)) == Upper(mode.Literal()) + " JOIN " + rSheet.tableName
  {
  }

  /** `count` counts all rows, like the newer `count("*")` on a table of the same name. */
  lemma CountAllRows(sheet: Sheet, newer: Sheets.Sheet)
    requires newer.tableName == sheet.tableName
    ensures CountStatement(sheet) == Sheets.CountStatement(newer, Sheets.Raw("*"))
  {
    Sheets.CountStar(newer);
  }

  /**
   * The older `select` renders column lists as given; it agrees with the
   * newer one whenever no column needs quoting.
   */
  lemma SelectMatchesNewer(sheet: Sheet, newer: Sheets.Sheet, names: seq<string>)
    requires newer.tableName == sheet.tableName
    requires forall i :: 0 <= i < |names| ==> ' ' !in Sheets.LastPart(names[i])
    ensures SelectStatement(sheet, Sheets.List(names)) == Sheets.SelectStatement(newer, Sheets.List(names))
  {
    Sheets.SelectPlainColumns(newer, names);
  }

  // ---------------------------------------------------------------------
  // The builder object

  /** SheetQuery of the older snapshot: one list of fragments. */
  class SheetQuery {
    var query: seq<string>

    constructor (fragments: seq<string>)
      ensures query == fragments
    {
      query := fragments;
    }

    static method Empty() returns (q: SheetQuery)
      ensures fresh(q) && q.query == []
    {
      q := new SheetQuery([]);
    }

    /** `parse`: the fragments space-joined, then `;`. */
    function Parse(): (r: string)
      reads this
      ensures r == Sheets.ParseFragments(query)
      ensures |r| > 0 && r[|r| - 1] == ';' && r[..|r| - 1] == JoinWith(" ", query)
    {
      JoinWith(" ", query) + ";"
    }

    /** `_add_query`: append one fragment here, or to a copy. */
    method AddQuery(parts: seq<string>, inplace: bool := true) returns (r: SheetQuery)
      modifies this
      ensures r.query == Sheets.AddFragment(old(query), parts)
      ensures inplace ==> r == this
      ensures !inplace ==> fresh(r) && query == old(query)
    {
      var fragment := JoinWith(" ", parts);
      if inplace {
        query := query + [fragment];
        return this;
      }
      r := new SheetQuery(query);
      r.query := r.query + [fragment];
    }

    /** `find_by_row_id`: the query collapses into one fragment. */
    method FindByRowId(rowId: seq<int>, inplace: bool := true) returns (r: SheetQuery)
      modifies this
      ensures r.query == [FindByRowIdFragment(old(query), rowId)]
      ensures inplace ==> r == this
      ensures !inplace ==> fresh(r) && query == old(query)
    {
      var q := FindByRowIdFragment(query, rowId);
      if inplace {
        query := [q];
        return this;
      }
      r := new SheetQuery([q]);
    }

    method FindById(columnId: string, id: seq<string>, inplace: bool := true) returns (r: SheetQuery)
      modifies this
      ensures r.query == FindByIdQuery(old(query), columnId, id)
      ensures Sheets.IsWhereFragment(r.query[|r.query| - 1])
      ensures inplace ==> r == this
      ensures !inplace ==> fresh(r) && query == old(query)
    {
      FindByIdAlwaysWhere(query, columnId, id);
      r := AddQuery([FindByIdFragment(columnId, id)], inplace);
    }

    method Join(lSheet: Sheet, rSheet: Sheet, mode: Sheets.JoinMode := Sheets.Natural, inplace: bool := true)
      returns (r: SheetQuery)
      modifies this
      ensures r.query == Sheets.AddFragment(old(query), JoinParts(lSheet, rSheet, mode))
      ensures inplace ==> r == this
      ensures !inplace ==> fresh(r) && query == old(query)
    {
      var parts := [Upper(mode.Literal()) + " JOIN " + rSheet.tableName];
      if mode == Sheets.Left || mode == Sheets.Right {
        parts := parts + ["ON " + lSheet.tableName + "." + lSheet.idColumn + "=" + rSheet.tableName + "." + rSheet.idColumn];
      }
      r := AddQuery(parts, inplace);
    }

    static method Select(sheet: Sheet, columns: Sheets.Columns := Sheets.Raw("*")) returns (q: SheetQuery)
      ensures fresh(q) && q.query == [SelectStatement(sheet, columns)]
    {
      q := new SheetQuery([SelectStatement(sheet, columns)]);
    }

    static method Count(sheet: Sheet) returns (q: SheetQuery)
      ensures fresh(q) && q.query == [CountStatement(sheet)]
    {
      q := new SheetQuery([CountStatement(sheet)]);
    }

    static method CreateTable(sheet: Sheet) returns (q: SheetQuery)
      ensures fresh(q) && q.query == [CreateTableStatement(sheet)]
    {
      q := new SheetQuery([CreateTableStatement(sheet)]);
    }

    static method DropTable(sheet: Sheet) returns (q: SheetQuery)
      ensures fresh(q) && q.query == [DropTableStatement(sheet)]
    {
      q := new SheetQuery([DropTableStatement(sheet)]);
    }

    static method CopyCsv(sheet: Sheet, csvPath: string) returns (q: SheetQuery)
      ensures fresh(q) && q.query == [CopyCsvStatement(sheet, csvPath)]
    {
      q := new SheetQuery([CopyCsvStatement(sheet, csvPath)]);
    }
  }

  // ---------------------------------------------------------------------
  // Construction and loading

  /** The raw CSV: a file named after the table, directly under the sheet's root. */
  function SourcePath(sheet: Sheet): string
  {
    sheet.root + "/" + sheet.tableName + ".csv"
  }

  /** The cached transformed CSV: named after the table, in the root's `transformed` directory. */
  function CachePath(sheet: Sheet): string
  {
    sheet.root + "/transformed/" + sheet.tableName + ".csv"
  }

  /** `__init__` (lines 42-45): DROP when `drop_table` is set, then CREATE; it cannot fail. */
  function InitStatements(sheet: Sheet): seq<string>
  {
    (if sheet.dropTable then [Sheets.Executed(DropTableStatement(sheet))] else []) + [Sheets.Executed(CreateTableStatement(sheet))]
  }

  /** Construction sends DROP (when asked) strictly before CREATE. */
  lemma InitOrder(sheet: Sheet)
    ensures |InitStatements(sheet)| == (if sheet.dropTable then 2 else 1)
    ensures InitStatements(sheet)[|InitStatements(sheet)| - 1] == CreateTableStatement(sheet) + ";"
    ensures sheet.dropTable ==> InitStatements(sheet)[0] == DropTableStatement(sheet) + ";"
  {
    assert JoinWith(" ", [CreateTableStatement(sheet)]) == CreateTableStatement(sheet);
    assert JoinWith(" ", [DropTableStatement(sheet)]) == DropTableStatement(sheet);
  }

  /**
   * The scaler loop of `_transform_data`, in list order: each `transform`
   * checks its columns, then rescales them, which is recorded as one more
   * applied step. The first check that fails stops the loop.
   */
  function ApplyScalers(scalers: seq<Scaler>, df: Frame): Result<Frame, LoadError>
    decreases |scalers|
  {
    if |scalers| == 0 then Success(df)
    else
      var prev := ApplyScalers(scalers[..|scalers| - 1], df);
      var s := scalers[|scalers| - 1];
      if prev.Failure? then prev
      else
        var missing := MissingColumns(s.transformColumns, prev.value);
        if |missing| > 0 then Failure(MissingScalerColumns(s.kind, missing))
        else Success(Frame(prev.value.columns, prev.value.applied + [s.kind]))
  }

  /** The kinds of the scalers, in list order. */
  function Kinds(scalers: seq<Scaler>): seq<string>
  {
    seq(|scalers|, i requires 0 <= i < |scalers| => scalers[i].kind)
  }

  /**
   * Scaling keeps the columns and appends exactly the scalers' kinds, in
   * list order, to the applied steps.
   */
  lemma {:induction false} ScalersInOrder(scalers: seq<Scaler>, df: Frame)
    requires ApplyScalers(scalers, df).Success?
    ensures ApplyScalers(scalers, df).value == Frame(df.columns, df.applied + Kinds(scalers))
    decreases |scalers|
  {
    if |scalers| > 0 {
      var init := scalers[..|scalers| - 1];
      ScalersInOrder(init, df);
      assert Kinds(scalers) == Kinds(init) + [scalers[|scalers| - 1].kind];
    } else {
      assert df.applied + Kinds(scalers) == df.applied;
    }
  }

  /** Once a scaler's check has failed, the later ones are not reached. */
  lemma {:induction false} ScalingStops(scalers: seq<Scaler>, i: nat, df: Frame)
    requires i <= |scalers|
    requires ApplyScalers(scalers[..i], df).Failure?
    ensures ApplyScalers(scalers, df) == ApplyScalers(scalers[..i], df)
    decreases |scalers|
  {
    if i < |scalers| {
      var init := scalers[..|scalers| - 1];
      assert init[..i] == scalers[..i];
      ScalingStops(init, i, df);
    } else {
      assert scalers[..i] == scalers;
    }
  }

  /** `_transform_data` (lines 59-69): the transform callback, then the scalers, in order. */
  function TransformData(sheet: Sheet, df: Frame): (r: Result<Frame, LoadError>)
    ensures sheet.scaler.None? ==> r == Success(ApplyTransform(sheet.transform, df))
    ensures r.Success? ==> var out := ApplyTransform(sheet.transform, df);
      && r.value.columns == out.columns
      && r.value.applied == out.applied + (if sheet.scaler.None? then [] else Kinds(sheet.scaler.value))
    ensures sheet.scaler.Some? ==> (r.Failure? <==> !AllFit(sheet.scaler.value, ApplyTransform(sheet.transform, df)))
    ensures r.Failure? ==> r.error.MissingScalerColumns?
  {
    var out := ApplyTransform(sheet.transform, df);
    if sheet.scaler.None? then
      assert out.applied + [] == out.applied;
      Success(out)
    else
      var scaled := ApplyScalers(sheet.scaler.value, out);
      ScalingFailsIff(sheet.scaler.value, out);
      if scaled.Success? then
        ScalersInOrder(sheet.scaler.value, out);
        scaled
      else scaled
  }

  /**
   * `load_csv` (lines 71-94): the cached path as in the newer snapshot;
   * otherwise read, require the id column, transform and scale, write the
   * whole frame to the cache and COPY it.
   */
  function LoadRun(sheet: Sheet, files: map<string, File>): Run
  {
    var cache := CachePath(sheet);
    if cache in files && !sheet.forceInsert then
      Run(if sheet.dropTable then [Sheets.Executed(CopyCsvStatement(sheet, cache))] else [], files, None)
    else
      match ReadCsv(files, SourcePath(sheet), sheet.columns)
      case Failure(e) => Run([], files, Some(e))
      case Success(df) =>
        if sheet.idColumn !in df.columns then Run([], files, Some(MissingIdColumn(sheet.idColumn)))
        else
          match TransformData(sheet, df)
          case Failure(e) => Run([], files, Some(e))
          case Success(out) => Run([Sheets.Executed(CopyCsvStatement(sheet, cache))], files[cache := Csv(out)], None)
  }

  predicate Cached(sheet: Sheet, files: map<string, File>)
  {
    CachePath(sheet) in files && !sheet.forceInsert
  }

  /**
   * A cached CSV without `force_insert`: no read, no write, and a COPY only
   * when `drop_table` is set.
   */
  lemma LoadFromCache(sheet: Sheet, files: map<string, File>)
    requires Cached(sheet, files)
    ensures var run := LoadRun(sheet, files);
      && run.files == files && run.error.None?
      && |run.statements| == (if sheet.dropTable then 1 else 0)
      && (sheet.dropTable ==> run.statements[0] == CopyCsvStatement(sheet, CachePath(sheet)) + ";")
  {
    assert JoinWith(" ", [CopyCsvStatement(sheet, CachePath(sheet))]) == CopyCsvStatement(sheet, CachePath(sheet));
  }

  /**
   * A failed load inserts nothing and changes no file; on the source path it
   * fails with the id-column error exactly when the id column was not read.
   */
  lemma FailedLoadChangesNothing(sheet: Sheet, files: map<string, File>)
    ensures LoadRun(sheet, files).error.Some? ==>
      LoadRun(sheet, files).statements == [] && LoadRun(sheet, files).files == files
    ensures !Cached(sheet, files) && ReadCsv(files, SourcePath(sheet), sheet.columns).Success? ==>
      (LoadRun(sheet, files).error == Some(MissingIdColumn(sheet.idColumn)) <==> sheet.idColumn !in Keys(sheet.columns))
  {
    if !Cached(sheet, files) && ReadCsv(files, SourcePath(sheet), sheet.columns).Success? {
      var df := ReadCsv(files, SourcePath(sheet), sheet.columns).value;
      if sheet.idColumn in df.columns && sheet.scaler.Some? {
        ScalingFailsIff(sheet.scaler.value, ApplyTransform(sheet.transform, df));
      }
    }
  }

  /**
   * Scaling fails exactly when some scaler misses one of its target columns,
   * and then with a scaler's column error.
   */
  lemma {:induction false} ScalingFailsIff(scalers: seq<Scaler>, df: Frame)
    ensures ApplyScalers(scalers, df).Failure? <==> !AllFit(scalers, df)
    ensures ApplyScalers(scalers, df).Failure? ==> ApplyScalers(scalers, df).error.MissingScalerColumns?
    decreases |scalers|
  {
    if |scalers| > 0 {
      var init := scalers[..|scalers| - 1];
      ScalingFailsIff(init, df);
      AllFitLast(scalers, df);
      if ApplyScalers(init, df).Success? {
        ScalersInOrder(init, df);
        MissingColumnsSameFrame(scalers[|scalers| - 1].transformColumns, ApplyScalers(init, df).value, df);
      }
    }
  }

  /**
   * A successful load from the source writes the cache with the transform
   * step and then every scaler's step, in list order, and sends one COPY;
   * loading again (without `force_insert`) then takes the cached path.
   */
  lemma LoadFromSource(sheet: Sheet, files: map<string, File>)
    requires !Cached(sheet, files)
    requires LoadRun(sheet, files).error.None?
    ensures var run := LoadRun(sheet, files);
      var src := files[SourcePath(sheet)].frame;
      var tr := if sheet.transform.Some? then [sheet.transform.value.name] else [];
      && SourcePath(sheet) in files && files[SourcePath(sheet)].Csv?
      && run.statements == [Sheets.Executed(CopyCsvStatement(sheet, CachePath(sheet)))]
      && CachePath(sheet) in run.files && run.files[CachePath(sheet)].Csv?
      && run.files[CachePath(sheet)].frame.applied
         == src.applied + tr + (if sheet.scaler.Some? then Kinds(sheet.scaler.value) else [])
    ensures !sheet.forceInsert ==> Cached(sheet, LoadRun(sheet, files).files)
  {
    var df := ReadCsv(files, SourcePath(sheet), sheet.columns).value;
    var out := ApplyTransform(sheet.transform, df);
    if sheet.scaler.Some? {
      ScalersInOrder(sheet.scaler.value, out);
    }
  }

  // ---------------------------------------------------------------------
  // Loading, performed on the backend

  /** `_transform_data`: the callback, then each scaler rescales the frame in turn. */
  method TransformFrame(sheet: Sheet, df: Frame) returns (r: Result<Frame, LoadError>)
    ensures r == TransformData(sheet, df)
  {
    var d := df;
    if sheet.transform.Some? {
      d := ApplyTransform(sheet.transform, d);
    }
    if sheet.scaler.None? {
      return Success(d);
    }
    var scalers := sheet.scaler.value;
    ghost var start := d;
    for i := 0 to |scalers|
      invariant ApplyScalers(scalers[..i], start) == Success(d)
    {
      assert scalers[..i + 1][..i] == scalers[..i];
      var missing := MissingColumns(scalers[i].transformColumns, d);
      if |missing| > 0 {
        ScalingStops(scalers, i + 1, start);
        return Failure(MissingScalerColumns(scalers[i].kind, missing));
      }
      d := Frame(d.columns, d.applied + [scalers[i].kind]);
    }
    assert scalers[..|scalers|] == scalers;
    return Success(d);
  }

  method InsertData(sheet: Sheet, csvPath: string, backend: Backend)
    modifies backend
    ensures backend.log == old(backend.log) + [Sheets.Executed(CopyCsvStatement(sheet, csvPath))]
    ensures backend.files == old(backend.files)
  {
    var q := SheetQuery.CopyCsv(sheet, csvPath);
    backend.Exec(q.Parse());
  }

  /** `__init__`: DROP (when asked), then CREATE. */
  method Init(sheet: Sheet, backend: Backend)
    modifies backend
    ensures backend.log == old(backend.log) + InitStatements(sheet)
    ensures backend.files == old(backend.files)
  {
    ghost var log0 := backend.log;
    if sheet.dropTable {
      var drop := SheetQuery.DropTable(sheet);
      backend.Exec(drop.Parse());
    }
    assert backend.log == log0 + (if sheet.dropTable then [Sheets.Executed(DropTableStatement(sheet))] else []);
    var create := SheetQuery.CreateTable(sheet);
    backend.Exec(create.Parse());
  }

  /** `load_csv`, performed step by step on the backend. */
  method LoadCsv(sheet: Sheet, backend: Backend) returns (err: Option<LoadError>)
    modifies backend
    ensures var run := LoadRun(sheet, old(backend.files));
      && backend.log == old(backend.log) + run.statements
      && backend.files == run.files
      && err == run.error
  {
    var csvPath := CachePath(sheet);
    if csvPath in backend.files && !sheet.forceInsert {
      if sheet.dropTable {
        InsertData(sheet, csvPath, backend);
      }
      return None;
    }
    var read := ReadCsv(backend.files, SourcePath(sheet), sheet.columns);
    if read.Failure? {
      return Some(read.error);
    }
    var df := read.value;
    if sheet.idColumn !in df.columns {
      return Some(MissingIdColumn(sheet.idColumn));
    }
    var out := TransformFrame(sheet, df);
    if out.Failure? {
      return Some(out.error);
    }
    backend.Write(csvPath, Csv(out.value));
    InsertData(sheet, csvPath, backend);
    return None;
  }
}
