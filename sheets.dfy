/**
 * The statement builder of mimic/utils/sheet.py.
 *
 * A `SheetQuery` holds one list of statement fragments; `parse` joins them
 * with single spaces and ends the statement with `;`. The static builders
 * (select, count, update, create/drop table, copy) are pure string
 * constructions and are written here as functions. The mutators take an
 * `inplace` flag: with it they change the receiver's list and return the
 * receiver, without it they return a new query and leave the receiver alone.
 * Each mutator is a method of the class `SheetQuery` proved against a
 * function on fragment lists (`WhereQuery`, `FindByRowIdQuery`, ...), and the
 * lemmas state what those functions guarantee, chief among them that a query
 * never carries more than one fragment opening with WHERE.
 */
module Sheets {
  import opened Wrappers
  import opened Text
  import opened Storage

  /**
   * One ingested table and its ingestion settings (Sheet.__init__, lines
   * 11-39). None of these fields changes after construction; what the sheet
   * does to the database and the files is modelled in SheetLoading.
   */
  datatype Sheet = Sheet(
    root: string,
    tableName: string,
    fileName: string,
    columns: seq<(string, string)>,    // ingest schema: column -> type, in order
    idColumn: string,
    scaler: Option<seq<Scaler>>,
    tableFields: seq<(string, string)>, // persisted schema
    transform: Option<Transform>,
    dropTable: bool,
    forceInsert: bool)

  /** The join modes the annotation at line 117 admits. */
  datatype JoinMode = Left | Right | Natural | Semi | Inner
  {
    /** The string the caller passes. */
    function Literal(): string
    {
      match this
      case Left => "left"
      case Right => "right"
      case Natural => "natural"
      case Semi => "semi"
      case Inner => "inner"
    }
  }

  /** The operators the annotation at line 189 admits. */
  datatype Operator = And | Or
  {
    function Literal(): string
    {
      match this
      case And => "and"
      case Or => "or"
    }
  }

  /** A join between two sheets on a pair of columns. */
  datatype SheetJoinCondition = SheetJoinCondition(
    lSheet: Sheet, rSheet: Sheet, lColumn: string, rColumn: string, mode: JoinMode)
  {
    /** The join constraint: USING for equal column names, ON otherwise. */
    function Prase(): (r: string)
      ensures lColumn == rColumn <==> StartsWith(r, "USING (")
      ensures lColumn != rColumn <==> StartsWith(r, "ON (")
      ensures lColumn == rColumn ==> r == "USING (" + lColumn + ")"
      ensures lColumn != rColumn ==>
        r == "ON (" + lSheet.tableName + "." + lColumn + "=" + rSheet.tableName + "." + rColumn + ")"
    {
      if lColumn == rColumn then
        var r := "USING (" + lColumn + ")";
        assert r[0] == 'U';
        r
      else
        var r := "ON (" + lSheet.tableName + "." + lColumn + "=" + rSheet.tableName + "." + rColumn + ")";
        assert r[0] == 'O';
        r
    }

    /** `_mode`: the mode upper-cased, the SQL keyword of the join. */
    function ModeKeyword(): (r: string)
      ensures mode == Left ==> r == "LEFT"
      ensures mode == Right ==> r == "RIGHT"
      ensures mode == Natural ==> r == "NATURAL"
      ensures mode == Semi ==> r == "SEMI"
      ensures mode == Inner ==> r == "INNER"
    {
      var r := Upper(mode.Literal());
      assert |r| == |mode.Literal()|;
      assert forall i :: 0 <= i < |r| ==> r[i] == UpperChar(mode.Literal()[i]);
      r
    }

    /** `_table_name`: the table being joined in is the right-hand sheet's. */
    function TableName(): (r: string)
      ensures r == rSheet.tableName
    {
      rSheet.tableName
    }
  }

  /** SheetJoinCondition.__init__: without columns, the two sheets' id columns. */
  function NewJoinCondition(lSheet: Sheet, rSheet: Sheet, columns: Option<(string, string)> := None,
                            mode: JoinMode := Natural): (c: SheetJoinCondition)
    ensures c.lSheet == lSheet && c.rSheet == rSheet && c.mode == mode
    ensures columns.None? ==> c.lColumn == lSheet.idColumn && c.rColumn == rSheet.idColumn
    ensures columns.Some? ==> (c.lColumn, c.rColumn) == columns.value
  {
    var cols := if columns.None? then (lSheet.idColumn, rSheet.idColumn) else columns.value;
    SheetJoinCondition(lSheet, rSheet, cols.0, cols.1, mode)
  }

  /**
   * The `columns` argument of select and count: a string used as it is, or
   * a list of column names.
   */
  datatype Columns = Raw(text: string) | List(names: seq<string>)

  // ---------------------------------------------------------------------
  // Column names

  /**
   * `_parse_column`: a column whose text after the last dot holds a space is
   * rendered as everything up to that dot followed by the WHOLE column name
   * in double quotes, so `t.a b` becomes `t."t.a b"`; any other column is
   * rendered unchanged. `ParseColumnSplit` is the split-and-join the source
   * performs, and `ParseColumnBySplit` proves the two agree.
   */
  function ParseColumn(column: string): (r: string)
    ensures r == column <==> ' ' !in LastPart(column)
    ensures ' ' in LastPart(column) ==>
      var k := LastIndexOf(column, '.');
      && |r| == k + |column| + 3
      && r[..k + 1] == column[..k + 1]
      && r[k + 1..] == "\"" + column + "\""
  {
    var k := LastIndexOf(column, '.');
    if ' ' in column[k + 1..] then column[..k + 1] + "\"" + column + "\"" else column
  }

  /** The text after the last dot of a column name. */
  function LastPart(column: string): string
  {
    column[LastIndexOf(column, '.') + 1..]
  }

  /** Split on dots; replace a last part holding a space by the quoted whole name; join on dots. */
  function ParseColumnSplit(column: string): string
  {
    var parts := SplitOn(column, '.');
    if ' ' in parts[|parts| - 1] then JoinWith(".", parts[..|parts| - 1] + ["\"" + column + "\""])
    else JoinWith(".", parts)
  }

  /** The split-and-join rendering is the one `ParseColumn` describes, for every column. */
  lemma ParseColumnBySplit(column: string)
    ensures ParseColumnSplit(column) == ParseColumn(column)
    ensures ' ' !in LastPart(column) ==> ParseColumnSplit(column) == column
    ensures ' ' in LastPart(column) ==>
      ParseColumnSplit(column) == column[..LastIndexOf(column, '.') + 1] + "\"" + column + "\""
  {
    if ' ' in LastPart(column) {
      SplitQuoted(column);
    } else {
      SplitPlain(column);
    }
  }

  /** A column whose last part has no space comes back unchanged from split-and-join. */
  lemma SplitPlain(column: string)
    requires ' ' !in LastPart(column)
    ensures ParseColumnSplit(column) == column
  {
    JoinSplit(column, '.');
  }

  lemma SplitQuoted(column: string)
    requires ' ' in LastPart(column)
    ensures ParseColumnSplit(column) == column[..LastIndexOf(column, '.') + 1] + "\"" + column + "\""
  {
    var k := LastIndexOf(column, '.');
    var r := column[..k + 1] + "\"" + column + "\"";
    if k >= 0 {
      QuotedDotted(column);
      assert ParseColumnSplit(column) == r;
    } else {
      QuotedBare(column);
      assert ParseColumnSplit(column) == r;
    }
  }

  lemma QuotedDotted(column: string)
    requires ' ' in LastPart(column) && LastIndexOf(column, '.') >= 0
    ensures ParseColumnSplit(column) == column[..LastIndexOf(column, '.') + 1] + "\"" + column + "\""
  {
    var quoted := "\"" + column + "\"";
    var parts := SplitOn(column, '.');
    assert ParseColumnSplit(column) == JoinWith(".", parts[..|parts| - 1] + [quoted]) by {
      assert parts[|parts| - 1] == LastPart(column);
    }
    QuotedJoin(column, LastIndexOf(column, '.'), quoted);
  }

  lemma QuotedBare(column: string)
    requires ' ' in LastPart(column) && LastIndexOf(column, '.') < 0
    ensures ParseColumnSplit(column) == column[..LastIndexOf(column, '.') + 1] + "\"" + column + "\""
  {
    SplitNone(column, '.');
    assert LastPart(column) == column;
    assert ParseColumnSplit(column) == JoinWith(".", ["\"" + column + "\""]);
  }

  lemma QuotedJoin(column: string, k: int, quoted: string)
    requires k == LastIndexOf(column, '.') && k >= 0
    ensures var parts := SplitOn(column, '.');
      JoinWith(".", parts[..|parts| - 1] + [quoted]) == column[..k + 1] + quoted
  {
    var head, tail := column[..k], column[k + 1..];
    assert column == head + ['.'] + tail;
    SplitOnLast(head, '.', tail);
    var init := SplitOn(head, '.');
    var parts := SplitOn(column, '.');
    assert parts[..|parts| - 1] == init;
    JoinAppend(".", init, quoted);
    JoinSplit(head, '.');
    assert column[..k + 1] == head + ".";
  }

  function ParsedColumns(names: seq<string>): seq<string>
  {
    seq(|names|, i requires 0 <= i < |names| => ParseColumn(names[i]))
  }

  // ---------------------------------------------------------------------
  // Statements built by the static constructors

  const SelectPrefix := "SELECT row_number() OVER () - 1 AS row_num, "

  /** The column part of a select: the string itself, or the parsed names comma-joined. */
  function SelectColumns(columns: Columns): string
  {
    match columns
    case Raw(text) => text
    case List(names) => JoinWith(",", ParsedColumns(names))
  }

  /** `select`: numbers the rows from 0 and selects the columns from the sheet's table. */
  function SelectStatement(sheet: Sheet, columns: Columns): (r: string)
    ensures StartsWith(r, SelectPrefix)
    ensures r[|SelectPrefix|..] == SelectColumns(columns) + " FROM " + sheet.tableName
  {
    SelectPrefix + SelectColumns(columns) + " FROM " + sheet.tableName
  }

  /** Column names that need no quoting are selected verbatim, comma-joined. */
  lemma SelectPlainColumns(sheet: Sheet, names: seq<string>)
    requires forall i :: 0 <= i < |names| ==> ' ' !in LastPart(names[i])
    ensures SelectStatement(sheet, List(names)) == SelectPrefix + JoinWith(",", names) + " FROM " + sheet.tableName
  {
    forall i | 0 <= i < |names|
      ensures ParsedColumns(names)[i] == names[i]
    {
      assert ParseColumn(names[i]) == names[i];
    }
    assert ParsedColumns(names) == names;
  }

  /** What `for column in columns` visits: a string yields its characters. */
  function CountedColumns(columns: Columns): seq<string>
  {
    match columns
    case Raw(text) => seq(|text|, i requires 0 <= i < |text| => [text[i]])
    case List(names) => names
  }

  /** `COUNT(c) AS c`, with the column parsed. */
  function CountItem(column: string): string
  {
    "COUNT(" + ParseColumn(column) + ") AS " + ParseColumn(column)
  }

  /** The items of a count: COUNT(*) for "*", otherwise one per visited column. */
  function CountItems(columns: Columns): seq<string>
  {
    if columns == Raw("*") then ["COUNT(*)"]
    else
      var cols := CountedColumns(columns);
      seq(|cols|, i requires 0 <= i < |cols| => CountItem(cols[i]))
  }

  /** Items built one per visited column are the items of the count. */
  lemma CountItemsVisited(columns: Columns, items: seq<string>)
    requires columns != Raw("*")
    requires |items| == |CountedColumns(columns)|
    requires forall k :: 0 <= k < |items| ==> items[k] == CountItem(CountedColumns(columns)[k])
    ensures items == CountItems(columns)
  {
  }

  function CountStatement(sheet: Sheet, columns: Columns): string
  {
    "SELECT " + JoinWith(",", CountItems(columns)) + " FROM " + sheet.tableName
  }

  /** `count("*")` counts all rows of the table. */
  lemma CountStar(sheet: Sheet)
    ensures CountStatement(sheet, Raw("*")) == "SELECT COUNT(*) FROM " + sheet.tableName
  {
    assert CountItems(Raw("*")) == ["COUNT(*)"];
  }

  /**
   * `count` over a list counts each column, in order, under its own name;
   * a column that needs no quoting appears verbatim.
   */
  lemma CountPerColumn(sheet: Sheet, names: seq<string>, i: nat)
    requires i < |names|
    ensures |CountItems(List(names))| == |names|
    ensures CountItems(List(names))[i] == "COUNT(" + ParseColumn(names[i]) + ") AS " + ParseColumn(names[i])
    ensures ' ' !in LastPart(names[i]) ==>
      CountItems(List(names))[i] == "COUNT(" + names[i] + ") AS " + names[i]
  {
    if ' ' !in LastPart(names[i]) {
      assert ParseColumn(names[i]) == names[i];
    }
  }

  function UpdateItem(field: (string, string)): string
  {
    ParseColumn(field.0) + "=" + field.1
  }

  function UpdateItems(fields: seq<(string, string)>): seq<string>
  {
    seq(|fields|, i requires 0 <= i < |fields| => UpdateItem(fields[i]))
  }

  /** `update`: sets each field to its value; no WHERE, callers chain one. */
  function UpdateStatement(sheet: Sheet, fields: seq<(string, string)>): string
  {
    "UPDATE " + sheet.tableName + " SET " + JoinWith(",", UpdateItems(fields))
  }

  function FieldDefinitions(fields: seq<(string, string)>): seq<string>
  {
    seq(|fields|, i requires 0 <= i < |fields| => ParseColumn(fields[i].0) + " " + fields[i].1)
  }

  /** `create_table`: the persisted schema, one `name type` per field, in order. */
  function CreateTableStatement(sheet: Sheet): string
  {
    "CREATE TABLE IF NOT EXISTS " + sheet.tableName + " (" + JoinWith(",", FieldDefinitions(sheet.tableFields)) + ")"
  }

  function DropTableStatement(sheet: Sheet): string
  {
    "DROP TABLE IF EXISTS " + sheet.tableName
  }

  function CopyCsvStatement(sheet: Sheet, csvPath: string): string
  {
    "COPY " + sheet.tableName + " FROM '" + csvPath + "' (FORMAT CSV, HEADER TRUE)"
  }

  // ---------------------------------------------------------------------
  // Fragment lists

  /** `parse`: the fragments joined by single spaces, then one `;`. */
  function ParseFragments(fragments: seq<string>): (r: string)
    ensures |r| > 0 && r[|r| - 1] == ';'
    ensures r[..|r| - 1] == JoinWith(" ", fragments)
  {
    JoinWith(" ", fragments) + ";"
  }

  /** The string the connection executes for a one-statement query. */
  function Executed(statement: string): (r: string)
    ensures r == statement + ";"
  {
    ParseFragments([statement])
  }

  /** When no fragment holds a `;`, the parsed statement holds exactly one, at its end. */
  lemma ParseSingleTerminator(fragments: seq<string>)
    requires forall k :: 0 <= k < |fragments| ==> ';' !in fragments[k]
    ensures forall i :: 0 <= i < |ParseFragments(fragments)| - 1 ==> ParseFragments(fragments)[i] != ';'
  {
    var r := ParseFragments(fragments);
    forall i | 0 <= i < |r| - 1
      ensures r[i] != ';'
    {
      var j := JoinWith(" ", fragments);
      assert r[i] == j[i];
      if j[i] == ';' {
        JoinChars(" ", fragments, ';');
      }
    }
  }

  /** A fragment that opens a WHERE clause, in any letter case. */
  predicate IsWhereFragment(fragment: string)
  {
    StartsWith(Lower(fragment), "where")
  }

  /** Whether some fragment opens a WHERE, the test `where` makes before adding clauses. */
  function ContainsWhere(fragments: seq<string>): (b: bool)
    ensures b <==> exists i :: 0 <= i < |fragments| && IsWhereFragment(fragments[i])
    decreases |fragments|
  {
    |fragments| > 0 && (IsWhereFragment(fragments[0]) || ContainsWhere(fragments[1..]))
  }

  /** The invariant of the builder: no two fragments open a WHERE clause. */
  predicate AtMostOneWhere(fragments: seq<string>)
  {
    forall i, j :: 0 <= i < j < |fragments| && IsWhereFragment(fragments[i]) ==> !IsWhereFragment(fragments[j])
  }

  /** `_add_query`: the parts joined by spaces become one more fragment. */
  function AddFragment(fragments: seq<string>, parts: seq<string>): seq<string>
  {
    fragments + [JoinWith(" ", parts)]
  }

  /** The i-th clause of a where: WHERE only for the first one, and only if none exists yet. */
  function WhereClause(conditions: seq<string>, op: Operator, containsWhere: bool, i: nat): string
    requires i < |conditions|
  {
    if i == 0 && !containsWhere then "WHERE " + conditions[i]
    else Upper(op.Literal()) + " " + conditions[i]
  }

  function WhereClauses(conditions: seq<string>, op: Operator, containsWhere: bool): seq<string>
  {
    seq(|conditions|, i requires 0 <= i < |conditions| => WhereClause(conditions, op, containsWhere, i))
  }

  /** `where`: the whole batch of clauses is added as one fragment. */
  function WhereQuery(fragments: seq<string>, conditions: seq<string>, op: Operator): seq<string>
  {
    AddFragment(fragments, WhereClauses(conditions, op, ContainsWhere(fragments)))
  }

  /** `SELECT * FROM (<query>)`. */
  function Subquery(fragments: seq<string>): string
  {
    "SELECT * FROM (" + JoinWith(" ", fragments) + ")"
  }

  function IntStrings(ids: seq<int>): seq<string>
  {
    seq(|ids|, i requires 0 <= i < |ids| => IntToString(ids[i]))
  }

  /** The row ids, comma-joined. */
  function RowIdList(rowIds: seq<int>): string
  {
    JoinWith([','], IntStrings(rowIds))
  }

  function RowIdCondition(rowIds: seq<int>): string
  {
    "row_num IN (" + RowIdList(rowIds) + ")"
  }

  /** `find_by_row_id`: wrap the query as a subquery, then filter it by row number. */
  function FindByRowIdQuery(fragments: seq<string>, rowIds: seq<int>): seq<string>
  {
    WhereQuery([Subquery(fragments)], [RowIdCondition(rowIds)], And)
  }

  function Quoted(ids: seq<string>): seq<string>
  {
    seq(|ids|, i requires 0 <= i < |ids| => "'" + ids[i] + "'")
  }

  function IdCondition(columnId: string, ids: seq<string>): string
  {
    ParseColumn(columnId) + " IN (" + JoinWith(",", Quoted(ids)) + ")"
  }

  /** `find_by_id`: a where over the quoted ids. */
  function FindByIdQuery(fragments: seq<string>, columnId: string, ids: seq<string>): seq<string>
  {
    WhereQuery(fragments, [IdCondition(columnId, ids)], And)
  }

  function JoinParts(condition: SheetJoinCondition): seq<string>
  {
    [condition.ModeKeyword() + " JOIN " + condition.TableName()]
      + (if condition.mode != Natural then [condition.Prase()] else [])
  }

  function LimitParts(limit: int, offset: Option<int>): seq<string>
  {
    ["LIMIT " + IntToString(limit)] + (if offset.Some? then ["OFFSET " + IntToString(offset.value)] else [])
  }

  // ---------------------------------------------------------------------
  // Lemmas about WHERE fragments

  /** A fragment whose first letter is not a `w` does not open a WHERE. */
  lemma NotWhereByFirst(s: string)
    requires |s| > 0 && LowerChar(s[0]) != 'w'
    ensures !IsWhereFragment(s)
  {
    assert Lower(s)[0] == LowerChar(s[0]);
  }

  /** A fragment that starts with `WHERE` opens a WHERE. */
  lemma WhereOpens(s: string)
    requires StartsWith(s, "WHERE")
    ensures IsWhereFragment(s)
  {
    assert s[0] == 'W' && s[1] == 'H' && s[2] == 'E' && s[3] == 'R' && s[4] == 'E';
    var l := Lower(s);
    assert l[0] == 'w' && l[1] == 'h' && l[2] == 'e' && l[3] == 'r' && l[4] == 'e';
    assert l[..5] == "where";
  }

  lemma OperatorKeyword(op: Operator)
    ensures Upper(op.Literal()) == (if op == And then "AND" else "OR")
  {
    var l := op.Literal();
    var u := Upper(l);
    if op == And {
      assert u[0] == 'A' && u[1] == 'N' && u[2] == 'D';
    } else {
      assert u[0] == 'O' && u[1] == 'R';
    }
  }

  /** Which fragment opens a WHERE decides what appending one does to the invariant. */
  lemma AppendFragment(fragments: seq<string>, f: string)
    ensures ContainsWhere(fragments + [f]) == (ContainsWhere(fragments) || IsWhereFragment(f))
    ensures AtMostOneWhere(fragments) && (IsWhereFragment(f) ==> !ContainsWhere(fragments))
            ==> AtMostOneWhere(fragments + [f])
  {
    var r := fragments + [f];
    assert forall i :: 0 <= i < |fragments| ==> r[i] == fragments[i];
    assert r[|fragments|] == f;
  }

  /**
   * Within one call's clauses, only the first opens a WHERE, and only when
   * the query had none; the others open with the operator.
   */
  lemma WhereClausesShape(conditions: seq<string>, op: Operator, containsWhere: bool, i: nat)
    requires i < |conditions|
    ensures IsWhereFragment(WhereClauses(conditions, op, containsWhere)[i]) <==> (i == 0 && !containsWhere)
    ensures !(i == 0 && !containsWhere) ==>
      WhereClauses(conditions, op, containsWhere)[i] == (if op == And then "AND " else "OR ") + conditions[i]
  {
    var c := WhereClauses(conditions, op, containsWhere)[i];
    OperatorKeyword(op);
    if i == 0 && !containsWhere {
      assert c[..5] == "WHERE";
      WhereOpens(c);
    } else {
      NotWhereByFirst(c);
    }
  }

  /** The fragment a where call adds opens a WHERE exactly when none existed and conditions were given. */
  lemma WhereFragmentOpens(conditions: seq<string>, op: Operator, containsWhere: bool)
    ensures IsWhereFragment(JoinWith(" ", WhereClauses(conditions, op, containsWhere)))
            <==> (!containsWhere && |conditions| > 0)
  {
    var clauses := WhereClauses(conditions, op, containsWhere);
    var f := JoinWith(" ", clauses);
    if |conditions| > 0 {
      JoinStartsWith(" ", clauses);
      WhereClausesShape(conditions, op, containsWhere, 0);
      var c0 := clauses[0];
      assert f[..|c0|] == c0;
      if !containsWhere {
        assert c0[..5] == "WHERE";
        assert f[..5] == c0[..5];
        WhereOpens(f);
      } else {
        OperatorKeyword(op);
        assert f[0] == c0[0];
        NotWhereByFirst(f);
      }
    }
  }

  /**
   * `where` adds exactly one fragment, leaves the earlier ones alone, opens a
   * WHERE only if the query had none, and keeps the one-WHERE invariant.
   */
  lemma WhereKeepsOneWhere(fragments: seq<string>, conditions: seq<string>, op: Operator)
    ensures |WhereQuery(fragments, conditions, op)| == |fragments| + 1
    ensures WhereQuery(fragments, conditions, op)[..|fragments|] == fragments
    ensures ContainsWhere(WhereQuery(fragments, conditions, op)) <==> ContainsWhere(fragments) || |conditions| > 0
    ensures AtMostOneWhere(fragments) ==> AtMostOneWhere(WhereQuery(fragments, conditions, op))
  {
    var has := ContainsWhere(fragments);
    var f := JoinWith(" ", WhereClauses(conditions, op, has));
    WhereFragmentOpens(conditions, op, has);
    AppendFragment(fragments, f);
    assert WhereQuery(fragments, conditions, op) == fragments + [f];
  }

  /** Calling `where` once per condition, in order. */
  function WhereEach(fragments: seq<string>, conditions: seq<string>, op: Operator): seq<string>
    decreases |conditions|
  {
    if |conditions| == 0 then fragments
    else WhereEach(WhereQuery(fragments, [conditions[0]], op), conditions[1..], op)
  }

  /** N single-condition where calls add the N clauses of one batched call, as N fragments. */
  lemma {:induction false} WhereChain(fragments: seq<string>, conditions: seq<string>, op: Operator)
    ensures WhereEach(fragments, conditions, op) == fragments + WhereClauses(conditions, op, ContainsWhere(fragments))
    decreases |conditions|
  {
    var has := ContainsWhere(fragments);
    if |conditions| > 0 {
      var next := WhereQuery(fragments, [conditions[0]], op);
      var first := WhereClause(conditions, op, has, 0);
      assert next == fragments + [first] by {
        assert WhereClauses([conditions[0]], op, has) == [first];
      }
      WhereKeepsOneWhere(fragments, [conditions[0]], op);
      WhereChain(next, conditions[1..], op);
      WhereClausesCons(conditions, op, has);
    }
  }

  /** The clauses of a batch: the first one, then the rest as if a WHERE existed. */
  lemma WhereClausesCons(conditions: seq<string>, op: Operator, containsWhere: bool)
    requires |conditions| > 0
    ensures WhereClauses(conditions, op, containsWhere)
      == [WhereClause(conditions, op, containsWhere, 0)] + WhereClauses(conditions[1..], op, true)
  {
    var all := WhereClauses(conditions, op, containsWhere);
    var rest := WhereClauses(conditions[1..], op, true);
    forall i | 1 <= i < |conditions|
      ensures all[i] == rest[i - 1]
    {
    }
  }

  /**
   * The number of clauses a chain of where calls produces: starting without a
   * WHERE, exactly one fragment opens it (the first), each later one opens
   * with the operator, in call order, and the query keeps one WHERE.
   */
  lemma ChainedWhere(fragments: seq<string>, conditions: seq<string>, op: Operator)
    requires !ContainsWhere(fragments) && |conditions| > 0
    ensures var r := WhereEach(fragments, conditions, op);
      && |r| == |fragments| + |conditions|
      && r[..|fragments|] == fragments
      && r[|fragments|] == "WHERE " + conditions[0]
      && (forall i :: 1 <= i < |conditions| ==>
            r[|fragments| + i] == (if op == And then "AND " else "OR ") + conditions[i])
      && AtMostOneWhere(r)
  {
    WhereChain(fragments, conditions, op);
    var clauses := WhereClauses(conditions, op, false);
    forall i | 1 <= i < |conditions|
      ensures clauses[i] == (if op == And then "AND " else "OR ") + conditions[i]
    {
      WhereClausesShape(conditions, op, false, i);
    }
    ClausesAfterPlainQuery(fragments, conditions, op);
  }

  /** Clauses of a first where, placed after a query without one, leave one WHERE. */
  lemma ClausesAfterPlainQuery(fragments: seq<string>, conditions: seq<string>, op: Operator)
    requires !ContainsWhere(fragments)
    ensures AtMostOneWhere(fragments + WhereClauses(conditions, op, false))
  {
    var r := fragments + WhereClauses(conditions, op, false);
    forall i, j | 0 <= i < j < |r| && IsWhereFragment(r[i])
      ensures !IsWhereFragment(r[j])
    {
      if i >= |fragments| {
        WhereClausesShape(conditions, op, false, i - |fragments|);
        WhereClausesShape(conditions, op, false, j - |fragments|);
      }
    }
  }

  /** One batched where renders the same statement as one where call per condition. */
  lemma BatchedWhereMatchesChain(fragments: seq<string>, conditions: seq<string>, op: Operator)
    requires |conditions| > 0
    ensures ParseFragments(WhereQuery(fragments, conditions, op)) == ParseFragments(WhereEach(fragments, conditions, op))
  {
    var clauses := WhereClauses(conditions, op, ContainsWhere(fragments));
    WhereChain(fragments, conditions, op);
    if |fragments| == 0 {
      assert WhereQuery(fragments, conditions, op) == [JoinWith(" ", clauses)];
      assert WhereEach(fragments, conditions, op) == clauses;
    } else {
      JoinFlatten(" ", fragments, clauses);
    }
  }

  /**
   * `where([])` still appends a fragment, an empty one, so the statement ends
   * in a space before `;` that no where call at all would leave behind.
   */
  lemma EmptyWhereAddsBlank(fragments: seq<string>, op: Operator)
    requires |fragments| > 0
    ensures WhereQuery(fragments, [], op) == fragments + [""]
    ensures ParseFragments(WhereQuery(fragments, [], op)) == JoinWith(" ", fragments) + " ;"
    ensures ParseFragments(WhereQuery(fragments, [], op)) != ParseFragments(WhereEach(fragments, [], op))
  {
    assert WhereClauses([], op, ContainsWhere(fragments)) == [];
    JoinAppend(" ", fragments, "");
    var joined := JoinWith(" ", fragments);
    assert |joined + " ;"| != |joined + ";"|;
  }

  /**
   * `find_by_row_id` leaves exactly two fragments: the old query wrapped as
   * a subquery, and a fresh WHERE on the row numbers, whatever filters the
   * old query already had.
   */
  lemma FindByRowIdShape(fragments: seq<string>, rowIds: seq<int>)
    ensures FindByRowIdQuery(fragments, rowIds) == [Subquery(fragments), "WHERE " + RowIdCondition(rowIds)]
    ensures AtMostOneWhere(FindByRowIdQuery(fragments, rowIds))
  {
    var sub := Subquery(fragments);
    NotWhereByFirst(sub);
    assert !ContainsWhere([sub]);
    assert WhereClauses([RowIdCondition(rowIds)], And, false) == ["WHERE " + RowIdCondition(rowIds)];
    WhereKeepsOneWhere([sub], [RowIdCondition(rowIds)], And);
  }

  function ParseInts(parts: seq<string>): seq<int>
  {
    seq(|parts|, i requires 0 <= i < |parts| => ParseInt(parts[i]))
  }

  /** Decoding a comma-separated list of row ids; the empty string is the empty list. */
  function DecodeRowIds(s: string): seq<int>
  {
    if s == "" then [] else ParseInts(SplitOn(s, ','))
  }

  lemma NoCommaInInt(i: int)
    ensures ',' !in IntToString(i)
  {
  }

  /** The rendered list splits back into the rendered ids. */
  lemma RowIdListSplits(rowIds: seq<int>)
    requires |rowIds| > 0
    ensures SplitOn(RowIdList(rowIds), ',') == IntStrings(rowIds)
  {
    var strs := IntStrings(rowIds);
    forall k | 0 <= k < |strs|
      ensures ',' !in strs[k]
    {
      NoCommaInInt(rowIds[k]);
    }
    SplitJoin(strs, ',');
  }

  /** Parsing the rendered ids gives the ids back. */
  lemma ParseIntStrings(ids: seq<int>)
    ensures ParseInts(IntStrings(ids)) == ids
  {
    var decoded := ParseInts(IntStrings(ids));
    forall k | 0 <= k < |ids|
      ensures decoded[k] == ids[k]
    {
      IntRoundTrip(ids[k]);
    }
  }

  /** The rendered row-id list decodes to exactly the requested ids, in order. */
  lemma RowIdListRoundTrip(rowIds: seq<int>)
    ensures DecodeRowIds(RowIdList(rowIds)) == rowIds
  {
    if |rowIds| > 0 {
      var strs := IntStrings(rowIds);
      JoinStartsWith([','], strs);
      assert |strs[0]| > 0;
      RowIdListSplits(rowIds);
      ParseIntStrings(rowIds);
    }
  }

  /**
   * `find_by_id` adds one clause: WHERE when the query had none, AND
   * otherwise; it never opens a second WHERE.
   */
  lemma FindByIdClause(fragments: seq<string>, columnId: string, ids: seq<string>)
    ensures FindByIdQuery(fragments, columnId, ids)
      == fragments + [(if ContainsWhere(fragments) then "AND " else "WHERE ") + IdCondition(columnId, ids)]
    ensures AtMostOneWhere(fragments) ==> AtMostOneWhere(FindByIdQuery(fragments, columnId, ids))
  {
    OperatorKeyword(And);
    var c := IdCondition(columnId, ids);
    assert WhereClause([c], And, ContainsWhere(fragments), 0)
      == (if ContainsWhere(fragments) then "AND " else "WHERE ") + c;
    assert WhereClauses([c], And, ContainsWhere(fragments))
      == [(if ContainsWhere(fragments) then "AND " else "WHERE ") + c];
    WhereKeepsOneWhere(fragments, [c], And);
  }

  function Unquote(s: string): string
  {
    if |s| >= 2 then s[1..|s| - 1] else s
  }

  /** Decoding a comma-separated list of quoted ids; the empty string is the empty list. */
  function DecodeIds(s: string): seq<string>
  {
    if s == "" then []
    else
      var parts := SplitOn(s, ',');
      seq(|parts|, k requires 0 <= k < |parts| => Unquote(parts[k]))
  }

  /** Ids free of commas are read back, in order, from the rendered IN list. */
  lemma IdListRoundTrip(ids: seq<string>)
    requires forall k :: 0 <= k < |ids| ==> ',' !in ids[k]
    ensures DecodeIds(JoinWith(",", Quoted(ids))) == ids
  {
    if |ids| > 0 {
      var q := Quoted(ids);
      forall k | 0 <= k < |q|
        ensures ',' !in q[k]
      {
        assert q[k] == "'" + ids[k] + "'";
      }
      JoinStartsWith(",", q);
      assert |q[0]| > 0;
      SplitJoin(q, ',');
      var decoded := DecodeIds(JoinWith(",", q));
      forall k | 0 <= k < |ids|
        ensures decoded[k] == ids[k]
      {
        assert q[k] == "'" + ids[k] + "'";
      }
    }
  }

  /** The first letters of the join keywords; none is a `w`. */
  lemma ModeKeywordStart(mode: JoinMode)
    ensures |Upper(mode.Literal())| > 0
    ensures LowerChar(Upper(mode.Literal())[0]) != 'w'
  {
    var u := Upper(mode.Literal());
    assert u[0] == UpperChar(mode.Literal()[0]);
  }

  /**
   * A join fragment is `<MODE> JOIN <table>`, followed by the join
   * constraint exactly when the mode is not natural; it never opens a WHERE.
   */
  lemma JoinFragment(condition: SheetJoinCondition)
    ensures var f := JoinWith(" ", JoinParts(condition));
      && (condition.mode == Natural <==> f == condition.ModeKeyword() + " JOIN " + condition.TableName())
      && (condition.mode != Natural ==>
            f == condition.ModeKeyword() + " JOIN " + condition.TableName() + " " + condition.Prase())
      && !IsWhereFragment(f)
  {
    var parts := JoinParts(condition);
    var head := condition.ModeKeyword() + " JOIN " + condition.TableName();
    ModeKeywordStart(condition.mode);
    if condition.mode != Natural {
      JoinAppend(" ", [head], condition.Prase());
      assert parts == [head] + [condition.Prase()];
    }
    var f := JoinWith(" ", parts);
    assert f[0] == head[0];
    NotWhereByFirst(f);
  }

  /** A limit fragment is `LIMIT n`, with ` OFFSET o` when an offset is given; never a WHERE. */
  lemma LimitFragment(limit: int, offset: Option<int>)
    ensures var f := JoinWith(" ", LimitParts(limit, offset));
      && f == "LIMIT " + IntToString(limit) + (if offset.Some? then " OFFSET " + IntToString(offset.value) else "")
      && !IsWhereFragment(f)
  {
    var head := "LIMIT " + IntToString(limit);
    if offset.Some? {
      JoinAppend(" ", [head], "OFFSET " + IntToString(offset.value));
      assert LimitParts(limit, offset) == [head] + ["OFFSET " + IntToString(offset.value)];
    }
    var f := JoinWith(" ", LimitParts(limit, offset));
    assert f[0] == 'L';
    NotWhereByFirst(f);
  }

  /** Adding a fragment that does not open a WHERE changes nothing about WHEREs. */
  lemma AppendNonWhere(fragments: seq<string>, f: string)
    requires !IsWhereFragment(f)
    ensures ContainsWhere(fragments + [f]) == ContainsWhere(fragments)
    ensures AtMostOneWhere(fragments) ==> AtMostOneWhere(fragments + [f])
  {
    AppendFragment(fragments, f);
  }

  /** No statement of the static constructors opens a WHERE. */
  lemma StatementsOpenNoWhere(sheet: Sheet, columns: Columns, fields: seq<(string, string)>, csvPath: string)
    ensures !IsWhereFragment(SelectStatement(sheet, columns))
    ensures !IsWhereFragment(CountStatement(sheet, columns))
    ensures !IsWhereFragment(UpdateStatement(sheet, fields))
    ensures !IsWhereFragment(CreateTableStatement(sheet))
    ensures !IsWhereFragment(DropTableStatement(sheet))
    ensures !IsWhereFragment(CopyCsvStatement(sheet, csvPath))
  {
    assert SelectPrefix[0] == 'S';
    assert SelectStatement(sheet, columns)[0] == 'S';
    NotWhereByFirst(SelectStatement(sheet, columns));
    assert CountStatement(sheet, columns)[0] == 'S';
    NotWhereByFirst(CountStatement(sheet, columns));
    assert UpdateStatement(sheet, fields)[0] == 'U';
    NotWhereByFirst(UpdateStatement(sheet, fields));
    assert CreateTableStatement(sheet)[0] == 'C';
    NotWhereByFirst(CreateTableStatement(sheet));
    assert DropTableStatement(sheet)[0] == 'D';
    NotWhereByFirst(DropTableStatement(sheet));
    assert CopyCsvStatement(sheet, csvPath)[0] == 'C';
    NotWhereByFirst(CopyCsvStatement(sheet, csvPath));
  }

  /** An update followed by find_by_id gets its filter as the WHERE clause. */
  lemma UpdateThenFindById(sheet: Sheet, fields: seq<(string, string)>, columnId: string, ids: seq<string>)
    ensures FindByIdQuery([UpdateStatement(sheet, fields)], columnId, ids)
      == [UpdateStatement(sheet, fields), "WHERE " + IdCondition(columnId, ids)]
  {
    var update := UpdateStatement(sheet, fields);
    assert update[0] == 'U';
    NotWhereByFirst(update);
    assert !ContainsWhere([update]);
    FindByIdClause([update], columnId, ids);
  }

  // ---------------------------------------------------------------------
  // The builder object

  /** SheetQuery: its whole state is the list of fragments. */
  class SheetQuery {
    var query: seq<string>

    /** `SheetQuery(query)`; a single string is the one-fragment list. */
    constructor (fragments: seq<string>)
      ensures query == fragments
    {
      query := fragments;
    }

    static method Empty() returns (q: SheetQuery)
      ensures fresh(q) && q.query == []
    {
      q := new SheetQuery([]);
    }

    /** `parse`: the fragments space-joined, then `;`. */
    function Parse(): (r: string)
      reads this
      ensures r == ParseFragments(query)
      ensures |r| > 0 && r[|r| - 1] == ';' && r[..|r| - 1] == JoinWith(" ", query)
    {
      JoinWith(" ", query) + ";"
    }

    /** `copy`: a new query with its own fragment list. */
    method Copy() returns (r: SheetQuery)
      ensures fresh(r) && r.query == query
    {
      r := new SheetQuery([]);
      r.query := query;
    }

    /** `_add_query`: append one fragment here, or to a copy. */
    method AddQuery(parts: seq<string>, inplace: bool := true) returns (r: SheetQuery)
      modifies this
      ensures r.query == AddFragment(old(query), parts)
      ensures inplace ==> r == this
      ensures !inplace ==> fresh(r) && query == old(query)
    {
      var fragment := JoinWith(" ", parts);
      if inplace {
        query := query + [fragment];
        r := this;
        return;
      }
      r := new SheetQuery(query);
      r.query := r.query + [fragment];
    }

    method Where(condition: seq<string>, operator: Operator := And, inplace: bool := true) returns (r: SheetQuery)
      modifies this
      ensures r.query == WhereQuery(old(query), condition, operator)
      ensures AtMostOneWhere(old(query)) ==> AtMostOneWhere(r.query)
      ensures inplace ==> r == this
      ensures !inplace ==> fresh(r) && query == old(query)
    {
      var containsWhere := ContainsWhere(query);
      ghost var had := containsWhere;
      var clauses: seq<string> := [];
      for i := 0 to |condition|
        invariant containsWhere == (had || i > 0)
        invariant |clauses| == i
        invariant forall k :: 0 <= k < i ==> clauses[k] == WhereClause(condition, operator, had, k)
      {
        if containsWhere {
          clauses := clauses + [Upper(operator.Literal()) + " " + condition[i]];
        } else {
          clauses := clauses + ["WHERE " + condition[i]];
          containsWhere := true;
        }
      }
      assert clauses == WhereClauses(condition, operator, had);
      WhereKeepsOneWhere(query, condition, operator);
      r := AddQuery(clauses, inplace);
    }

    method FindByRowId(rowId: seq<int>, inplace: bool := true) returns (r: SheetQuery)
      modifies this
      ensures r.query == FindByRowIdQuery(old(query), rowId)
      ensures |r.query| == 2 && AtMostOneWhere(r.query)
      ensures inplace ==> r == this
      ensures !inplace ==> fresh(r) && query == old(query)
    {
      FindByRowIdShape(query, rowId);
      var subquery := "SELECT * FROM (" + JoinWith(" ", query) + ")";
      var condition := "row_num IN (" + JoinWith(",", IntStrings(rowId)) + ")";
      if inplace {
        query := [subquery];
        r := Where([condition], And, inplace);
      } else {
        var wrapped := new SheetQuery([subquery]);
        r := wrapped.Where([condition], And, inplace);
      }
    }

    method FindById(columnId: string, id: seq<string>, inplace: bool := true) returns (r: SheetQuery)
      modifies this
      ensures r.query == FindByIdQuery(old(query), columnId, id)
      ensures AtMostOneWhere(old(query)) ==> AtMostOneWhere(r.query)
      ensures inplace ==> r == this
      ensures !inplace ==> fresh(r) && query == old(query)
    {
      var condition := ParseColumn(columnId) + " IN (" + JoinWith(",", Quoted(id)) + ")";
      r := Where([condition], And, inplace);
    }

    method Join(condition: SheetJoinCondition, inplace: bool := true) returns (r: SheetQuery)
      modifies this
      ensures r.query == AddFragment(old(query), JoinParts(condition))
      ensures ContainsWhere(r.query) == ContainsWhere(old(query))
      ensures AtMostOneWhere(old(query)) ==> AtMostOneWhere(r.query)
      ensures inplace ==> r == this
      ensures !inplace ==> fresh(r) && query == old(query)
    {
      var parts := [condition.ModeKeyword() + " JOIN " + condition.TableName()];
      if condition.mode != Natural {
        parts := parts + [condition.Prase()];
      }
      JoinFragment(condition);
      AppendNonWhere(query, JoinWith(" ", parts));
      r := AddQuery(parts, inplace);
    }

    method Limit(limit: int, offset: Option<int> := None, inplace: bool := true) returns (r: SheetQuery)
      modifies this
      ensures r.query == AddFragment(old(query), LimitParts(limit, offset))
      ensures ContainsWhere(r.query) == ContainsWhere(old(query))
      ensures AtMostOneWhere(old(query)) ==> AtMostOneWhere(r.query)
      ensures inplace ==> r == this
      ensures !inplace ==> fresh(r) && query == old(query)
    {
      var parts := ["LIMIT " + IntToString(limit)];
      if offset.Some? {
        parts := parts + ["OFFSET " + IntToString(offset.value)];
      }
      LimitFragment(limit, offset);
      AppendNonWhere(query, JoinWith(" ", parts));
      r := AddQuery(parts, inplace);
    }

    static method Select(sheet: Sheet, columns: Columns := Raw("*")) returns (q: SheetQuery)
      ensures fresh(q) && q.query == [SelectStatement(sheet, columns)]
    {
      var cols := columns;
      if columns.List? {
        cols := Raw(JoinWith(",", ParsedColumns(columns.names)));
      }
      q := new SheetQuery([SelectPrefix + cols.text + " FROM " + sheet.tableName]);
    }

    static method Count(sheet: Sheet, columns: Columns := Raw("*")) returns (q: SheetQuery)
      ensures fresh(q) && q.query == [CountStatement(sheet, columns)]
    {
      var count: seq<string>;
      if columns == Raw("*") {
        count := ["COUNT(*)"];
      } else {
        count := CountEach(CountedColumns(columns));
        CountItemsVisited(columns, count);
      }
      q := new SheetQuery(["SELECT " + JoinWith(",", count) + " FROM " + sheet.tableName]);
    }

    /** The loop of `count`: one `COUNT(c) AS c` per visited column, in order. */
    static method CountEach(visited: seq<string>) returns (count: seq<string>)
      ensures |count| == |visited|
      ensures forall k :: 0 <= k < |visited| ==> count[k] == CountItem(visited[k])
    {
      count := [];
      for i := 0 to |visited|
        invariant |count| == i
        invariant forall k :: 0 <= k < i ==> count[k] == CountItem(visited[k])
      {
        count := count + [CountItem(visited[i])];
      }
    }

    static method Update(sheet: Sheet, fields: seq<(string, string)>) returns (q: SheetQuery)
      ensures fresh(q) && q.query == [UpdateStatement(sheet, fields)]
    {
      var update: seq<string> := [];
      for i := 0 to |fields|
        invariant |update| == i
        invariant forall k :: 0 <= k < i ==> update[k] == UpdateItem(fields[k])
      {
        update := update + [UpdateItem(fields[i])];
      }
      assert update == UpdateItems(fields);
      q := new SheetQuery(["UPDATE " + sheet.tableName + " SET " + JoinWith(",", update)]);
    }

    static method CreateTable(sheet: Sheet) returns (q: SheetQuery)
      ensures fresh(q) && q.query == [CreateTableStatement(sheet)]
    {
      q := new SheetQuery([CreateTableStatement(sheet)]);
    }

    static method DropTable(sheet: Sheet) returns (q: SheetQuery)
      ensures fresh(q) && q.query == [DropTableStatement(sheet)]
    {
      q := new SheetQuery([DropTableStatement(sheet)]);
    }

    static method CopyCsv(sheet: Sheet, csvPath: string) returns (q: SheetQuery)
      ensures fresh(q) && q.query == [CopyCsvStatement(sheet, csvPath)]
    {
      q := new SheetQuery([CopyCsvStatement(sheet, csvPath)]);
    }
  }
}
