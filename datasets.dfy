/**
 * The orchestration of mimic/datasets/base.py that builds and uses the
 * standing queries of a dataset: `_calc_query` (a select or a count on the
 * first sheet, then one join per join condition), the constructor's order of
 * steps (queries first, then the optional download, then either stop on
 * `skip_load` or check the files and load every sheet), `get_by_id` (a
 * filtered copy of the main query) and `__getitem__`.
 */
module Datasets {
  import opened Wrappers
  import opened Text
  import opened Storage
  import opened Sheets
  import SheetLoading

  /** Why building a dataset fails. */
  datatype DatasetError =
    | NoJoinConditions          // IndexError: `join_conditions[0]` of an empty list
    | NotFound                  // RuntimeError: the files are not on disk
    | LoadFailed(e: LoadError)  // a sheet's `load_csv` raised

  /** The join fragment `join` adds for one condition. */
  function JoinFragmentOf(condition: SheetJoinCondition): string
  {
    JoinWith(" ", JoinParts(condition))
  }

  function JoinFragments(conditions: seq<SheetJoinCondition>): seq<string>
  {
    seq(|conditions|, i requires 0 <= i < |conditions| => JoinFragmentOf(conditions[i]))
  }

  lemma JoinFragmentsAppend(conditions: seq<SheetJoinCondition>, i: nat)
    requires i < |conditions|
    ensures JoinFragments(conditions[..i + 1]) == JoinFragments(conditions[..i]) + [JoinFragmentOf(conditions[i])]
  {
    assert conditions[..i + 1] == conditions[..i] + [conditions[i]];
  }

  /** The columns asked for, or the default when the list is absent or empty. */
  function ColumnsOr(columns: seq<string>, default: Columns): Columns
  {
    if |columns| == 0 then default else List(columns)
  }

  /** The first fragment of `_calc_query`: a count or a select on the first left sheet. */
  function BaseStatement(conditions: seq<SheetJoinCondition>, defaultColumns: Columns, onlyCount: bool,
                         columns: seq<string>): string
    requires |conditions| > 0
  {
    var first := conditions[0].lSheet;
    if onlyCount then CountStatement(first, ColumnsOr(columns, Raw("*")))
    else SelectStatement(first, ColumnsOr(columns, defaultColumns))
  }

  /** The fragments `_calc_query` produces. */
  function StandingQuery(conditions: seq<SheetJoinCondition>, defaultColumns: Columns, onlyCount: bool,
                         columns: seq<string>): seq<string>
    requires |conditions| > 0
  {
    [BaseStatement(conditions, defaultColumns, onlyCount, columns)] + JoinFragments(conditions)
  }

  /** No fragment of the standing query opens a WHERE. */
  lemma StandingQueryNoWhere(conditions: seq<SheetJoinCondition>, defaultColumns: Columns, onlyCount: bool,
                             columns: seq<string>)
    requires |conditions| > 0
    ensures !ContainsWhere(StandingQuery(conditions, defaultColumns, onlyCount, columns))
  {
    var q := StandingQuery(conditions, defaultColumns, onlyCount, columns);
    StatementsOpenNoWhere(conditions[0].lSheet, ColumnsOr(columns, if onlyCount then Raw("*") else defaultColumns), [], "");
    forall i | 0 <= i < |q|
      ensures !IsWhereFragment(q[i])
    {
      if i > 0 {
        JoinFragment(conditions[i - 1]);
      }
    }
  }

  /**
   * The standing query is the base statement followed by exactly one join
   * fragment per condition, in list order; the count query counts all rows
   * unless columns are given; and no fragment opens a WHERE.
   */
  lemma StandingQueryShape(conditions: seq<SheetJoinCondition>, defaultColumns: Columns, onlyCount: bool,
                           columns: seq<string>)
    requires |conditions| > 0
    ensures var q := StandingQuery(conditions, defaultColumns, onlyCount, columns);
      && |q| == 1 + |conditions|
      && (onlyCount && columns == [] ==> q[0] == "SELECT COUNT(*) FROM " + conditions[0].lSheet.tableName)
      && (!onlyCount && columns == [] ==> q[0] == SelectStatement(conditions[0].lSheet, defaultColumns))
      && (forall i :: 0 <= i < |conditions| ==> q[1 + i] == JoinFragmentOf(conditions[i]))
      && !ContainsWhere(q)
  {
    if onlyCount && columns == [] {
      CountStar(conditions[0].lSheet);
    }
    StandingQueryNoWhere(conditions, defaultColumns, onlyCount, columns);
  }

  /**
   * Filtering the main query by id adds exactly one fragment, which opens
   * the query's only WHERE.
   */
  lemma FilteredStandingQuery(conditions: seq<SheetJoinCondition>, defaultColumns: Columns, columns: seq<string>,
                              columnId: string, ids: seq<string>)
    requires |conditions| > 0
    ensures var q := StandingQuery(conditions, defaultColumns, false, columns);
      && FindByIdQuery(q, columnId, ids) == q + ["WHERE " + IdCondition(columnId, ids)]
      && AtMostOneWhere(FindByIdQuery(q, columnId, ids))
  {
    var q := StandingQuery(conditions, defaultColumns, false, columns);
    StandingQueryShape(conditions, defaultColumns, false, columns);
    FindByIdClause(q, columnId, ids);
    assert AtMostOneWhere(q);
  }

  /**
   * Loading the sheets in order (`_load_data`): each sheet's load runs on the
   * files the previous ones left; the first failure stops the loop, and what
   * earlier sheets did stays done.
   */
  function LoadAll(sheets: seq<Sheet>, files: map<string, File>): Run
    decreases |sheets|
  {
    if |sheets| == 0 then Run([], files, None)
    else
      var prev := LoadAll(sheets[..|sheets| - 1], files);
      if prev.error.Some? then prev
      else
        var run := SheetLoading.LoadRun(sheets[|sheets| - 1], prev.files);
        Run(prev.statements + run.statements, run.files, run.error)
  }

  /** One more sheet: its load runs on the files the earlier ones left. */
  lemma LoadAllStep(sheets: seq<Sheet>, i: nat, files: map<string, File>)
    requires i < |sheets|
    requires LoadAll(sheets[..i], files).error.None?
    ensures var prev := LoadAll(sheets[..i], files);
      var run := SheetLoading.LoadRun(sheets[i], prev.files);
      LoadAll(sheets[..i + 1], files) == Run(prev.statements + run.statements, run.files, run.error)
  {
    assert sheets[..i + 1][..i] == sheets[..i];
  }

  /** Once a sheet's load has failed, the later sheets are not loaded. */
  lemma {:induction false} LoadAllStops(sheets: seq<Sheet>, i: nat, files: map<string, File>)
    requires i <= |sheets|
    requires LoadAll(sheets[..i], files).error.Some?
    ensures LoadAll(sheets, files) == LoadAll(sheets[..i], files)
    decreases |sheets|
  {
    if i < |sheets| {
      var init := sheets[..|sheets| - 1];
      assert init[..i] == sheets[..i];
      LoadAllStops(init, i, files);
    } else {
      assert sheets[..i] == sheets;
    }
  }

  /** The COPY of each cached CSV whose sheet drops its table, in sheet order. */
  function CacheCopies(sheets: seq<Sheet>): seq<string>
    decreases |sheets|
  {
    if |sheets| == 0 then []
    else
      var last := sheets[|sheets| - 1];
      CacheCopies(sheets[..|sheets| - 1])
        + (if last.dropTable then [Executed(CopyCsvStatement(last, SheetLoading.CachePath(last)))] else [])
  }

  /**
   * When every sheet's cached CSV exists and none forces an insert, loading
   * the dataset reads nothing, writes nothing, and sends exactly one COPY per
   * sheet that drops its table, in sheet order.
   */
  lemma {:induction false} LoadAllFromCache(sheets: seq<Sheet>, files: map<string, File>)
    requires forall k :: 0 <= k < |sheets| ==> SheetLoading.Cached(sheets[k], files)
    ensures var run := LoadAll(sheets, files);
      run.error.None? && run.files == files && run.statements == CacheCopies(sheets)
    decreases |sheets|
  {
    if |sheets| > 0 {
      var init := sheets[..|sheets| - 1];
      var last := sheets[|sheets| - 1];
      assert forall k :: 0 <= k < |init| ==> init[k] == sheets[k];
      LoadAllFromCache(init, files);
    }
  }

  /** The dataset: its settings and its two standing queries. */
  class BaseDataset {
    const columnId: string
    const columns: Columns
    const sheets: seq<Sheet>
    const joinConditions: seq<SheetJoinCondition>
    var mainQuery: SheetQuery
    var countQuery: SheetQuery

    /**
     * `_calc_query`: a count (of the given columns, or of all rows) or a
     * select (of the given columns, or of the dataset's columns) on the first
     * condition's left sheet, then `join` in place for every condition.
     */
    static method CalcQuery(joinConditions: seq<SheetJoinCondition>, defaultColumns: Columns,
                            onlyCount: bool := false, columns: seq<string> := []) returns (q: SheetQuery)
      requires |joinConditions| > 0
      ensures fresh(q)
      ensures q.query == StandingQuery(joinConditions, defaultColumns, onlyCount, columns)
    {
      q := SheetQuery.Empty();
      var firstSheet := joinConditions[0].lSheet;
      if onlyCount {
        q := SheetQuery.Count(firstSheet, ColumnsOr(columns, Raw("*")));
      } else {
        q := SheetQuery.Select(firstSheet, ColumnsOr(columns, defaultColumns));
      }
      JoinAll(q, joinConditions);
    }

    /** The loop of `_calc_query`: `query.join(condition)` in place, for every condition in order. */
    static method JoinAll(q: SheetQuery, joinConditions: seq<SheetJoinCondition>)
      modifies q
      ensures q.query == old(q.query) + JoinFragments(joinConditions)
    {
      ghost var start := q.query;
      for i := 0 to |joinConditions|
        invariant q.query == start + JoinFragments(joinConditions[..i])
      {
        var same := q.Join(joinConditions[i]);
        JoinFragmentsAppend(joinConditions, i);
      }
      assert joinConditions[..|joinConditions|] == joinConditions;
    }

    /** Lines 32-47: the settings, then the two queries, before anything touches the files or the database. */
    constructor (columnId: string, columns: Columns, sheets: seq<Sheet>, joinConditions: seq<SheetJoinCondition>)
      requires |joinConditions| > 0
      ensures this.columnId == columnId && this.columns == columns
      ensures this.sheets == sheets && this.joinConditions == joinConditions
      ensures fresh(mainQuery) && fresh(countQuery) && mainQuery != countQuery
      ensures mainQuery.query == StandingQuery(joinConditions, columns, false, [])
      ensures countQuery.query == StandingQuery(joinConditions, columns, true, [])
    {
      this.columnId := columnId;
      this.columns := columns;
      this.sheets := sheets;
      this.joinConditions := joinConditions;
      var main := CalcQuery(joinConditions, columns, false);
      var count := CalcQuery(joinConditions, columns, true);
      mainQuery := main;
      countQuery := count;
    }

    /**
     * `BaseDataset.__init__`. `present` is the outcome of the existence check
     * after the optional download. With `skip_load` nothing is checked or
     * loaded; otherwise a missing dataset fails before any load, and then the
     * sheets are loaded in order.
     */
    static method Open(columnId: string, columns: Columns, sheets: seq<Sheet>,
                       joinConditions: seq<SheetJoinCondition>, skipLoad: bool, present: bool,
                       backend: Backend)
      returns (r: Result<BaseDataset, DatasetError>)
      modifies backend
      ensures |joinConditions| == 0 ==> r == Failure(NoJoinConditions)
      ensures (|joinConditions| == 0 || skipLoad || !present) ==>
        backend.log == old(backend.log) && backend.files == old(backend.files)
      ensures |joinConditions| > 0 && !skipLoad && !present ==> r == Failure(NotFound)
      ensures |joinConditions| > 0 && skipLoad ==> r.Success?
      ensures |joinConditions| > 0 && !skipLoad && present ==>
        var run := LoadAll(sheets, old(backend.files));
        && backend.log == old(backend.log) + run.statements
        && backend.files == run.files
        && (run.error.Some? ==> r == Failure(LoadFailed(run.error.value)))
        && (run.error.None? ==> r.Success?)
      ensures r.Success? ==> (fresh(r.value)
        && r.value.mainQuery.query == StandingQuery(joinConditions, columns, false, [])
        && r.value.countQuery.query == StandingQuery(joinConditions, columns, true, []))
    {
      if |joinConditions| == 0 {
        return Failure(NoJoinConditions);
      }
      var d := new BaseDataset(columnId, columns, sheets, joinConditions);
      if skipLoad {
        return Success(d);
      }
      if !present {
        return Failure(NotFound);
      }
      var err := d.LoadData(backend);
      if err.Some? {
        return Failure(LoadFailed(err.value));
      }
      return Success(d);
    }

    /** `_load_data`: `load_csv` on every sheet, in order. */
    method LoadData(backend: Backend) returns (err: Option<LoadError>)
      modifies backend
      ensures var run := LoadAll(sheets, old(backend.files));
        && backend.log == old(backend.log) + run.statements
        && backend.files == run.files
        && err == run.error
    {
      ghost var log0, files0 := backend.log, backend.files;
      for i := 0 to |sheets|
        invariant LoadAll(sheets[..i], files0).error.None?
        invariant backend.log == log0 + LoadAll(sheets[..i], files0).statements
        invariant backend.files == LoadAll(sheets[..i], files0).files
      {
        ghost var prev := LoadAll(sheets[..i], files0);
        LoadAllStep(sheets, i, files0);
        var e := SheetLoading.LoadCsv(sheets[i], backend);
        ghost var run := SheetLoading.LoadRun(sheets[i], prev.files);
        assert backend.log == log0 + (prev.statements + run.statements);
        if e.Some? {
          LoadAllStops(sheets, i + 1, files0);
          return e;
        }
      }
      assert sheets[..|sheets|] == sheets;
      return None;
    }

    /**
     * `get_by_id`: fetch the main query filtered by the ids, built on a copy
     * so that the main query itself is unchanged. Returns the statement sent.
     */
    method GetById(id: seq<string>, backend: Backend) returns (statement: string)
      modifies mainQuery, backend
      ensures statement == ParseFragments(FindByIdQuery(mainQuery.query, columnId, id))
      ensures |joinConditions| > 0 && mainQuery.query == StandingQuery(joinConditions, columns, false, []) ==>
        statement == ParseFragments(mainQuery.query + ["WHERE " + IdCondition(columnId, id)])
      ensures mainQuery.query == old(mainQuery.query)
      ensures backend.log == old(backend.log) + [statement] && backend.files == old(backend.files)
    {
      if |joinConditions| > 0 {
        FilteredStandingQuery(joinConditions, columns, [], columnId, id);
      }
      var query := mainQuery.FindById(columnId, id, false);
      statement := query.Parse();
      backend.Exec(statement);
    }

    /** `__getitem__`: the index itself; rows are fetched by `collate_fn`. */
    function GetItem(idx: int): (r: int)
      ensures r == idx
    {
      idx
    }
  }
}
