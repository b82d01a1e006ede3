# SheetQuery, Sheet and BaseDataset, modelled in Dafny

This project models the core of a dataset-preparation layer for clinical
research corpora. The core is the SQL statement builder `SheetQuery` and
the join descriptor `SheetJoinCondition`. Around them sit the control flow
of `Sheet` and the query-building part of `BaseDataset`. `Sheet` decides
when a table is dropped, created and loaded from CSV. `BaseDataset` builds
the two standing join queries, filters them by id and addresses rows.

Two snapshots of the builder exist and both are modelled:

- `mimic/utils/sheet.py` is the current one (modules `Sheets` and
  `SheetLoading`).
- `utils/sheet.py` is the older one (module `LegacySheets`).

The orchestration in `mimic/datasets/base.py` is module `Datasets`.

A `SheetQuery` holds one list of statement fragments. `parse` joins them
with single spaces and appends `;`. Every mutator takes an `inplace` flag.
With it, the mutator appends to (or replaces) the receiver's list and
returns the receiver. Without it, the mutator returns a fresh query and
leaves the receiver unchanged. In Dafny the builder is a class with one
`seq<string>` field. Each mutator is a method proved against a function on
fragment lists (`WhereQuery`, `FindByRowIdQuery`, `FindByIdQuery`, ...).
The lemmas state what those functions guarantee. The main one is that
the current snapshot's mutators (`where`, `find_by_id`, `find_by_row_id`,
`join`, `limit`) never add a second fragment that opens a WHERE: a query
with at most one keeps at most one. The constructor takes any list of
fragments, so a query built directly from a list can start with two.

The database connection becomes `Storage.Backend.log`, the list of
statement strings executed. The file system becomes `Storage.Backend.files`,
a map from path to file. A DataFrame becomes its set of column names plus
the list of steps applied to its values. `load_csv`, `_transform_data` and
the sheet constructor are written twice:

- as functions from the files on disk to (statements sent, files
  afterwards, error raised);
- as methods that perform the same steps on a `Backend`, each proved equal
  to its function.

Module layout:

- `wrappers.dfy`: `Option` and `Result`.
- `text.dfy`: `str.join`, `str.split`, ASCII `upper`/`lower` and `str(int)`,
  each with its decoding and a round-trip lemma.
- `storage.dfy`: frames, files, scalers, load errors, reading a CSV and the `Backend`.
- `sheets.dfy`: the current `SheetQuery`, `SheetJoinCondition` and `_parse_column`.
- `sheet_loading.dfy`: the current `Sheet.__init__`, `_transform_data` and `load_csv`.
- `legacy_sheets.dfy`: the older `SheetQuery` and `Sheet`.
- `datasets.dfy`: `BaseDataset`.

The model follows each snapshot's own code where the two differ:

- The current `_transform_data` fits and saves every scaler but never
  applies one (mimic/utils/sheet.py:74-76). The older one replaces the
  frame by each scaler's output in turn (utils/sheet.py:66-67). The current
  `Sheet.transform` (mimic/utils/sheet.py:105-108) applies the scalers but
  nothing in the core calls it. So a frame loaded by the current snapshot
  keeps its unscaled values.
- In the current snapshot each scaler is saved before the next one is
  fitted (mimic/utils/sheet.py:74-76). A load that fails at the second
  scaler therefore keeps the first scaler's saved file.
- `update` joins its assignments with `,` and no space
  (mimic/utils/sheet.py:304).
- The older `find_by_id` appends its own `WHERE` fragment
  (utils/sheet.py:151), so a query that is already filtered gets a second
  WHERE. The current one goes through `where` (mimic/utils/sheet.py:234),
  which opens with AND once a WHERE exists. See "## Findings".

## Model

| member | source | states |
|---|---|---|
| Sheets.SheetJoinCondition.Prase | mimic/utils/sheet.py:127-131 | `USING (c)` exactly when the two column names are equal, `ON (l.c=r.c)` with both table names exactly when they differ |
| Sheets.SheetJoinCondition.ModeKeyword | mimic/utils/sheet.py:133-135 | each join mode gives its upper-case SQL keyword: LEFT, RIGHT, NATURAL, SEMI, INNER |
| Sheets.SheetJoinCondition.TableName | mimic/utils/sheet.py:137-139 | the table joined in is the right-hand sheet's |
| Sheets.NewJoinCondition | mimic/utils/sheet.py:112-125 | without columns the pair is (left id column, right id column); given columns are taken as they are; sheets and mode are kept |
| Sheets.ParseColumn | mimic/utils/sheet.py:150-156 | a column is rendered unchanged exactly when its text after the last dot has no space; otherwise the text up to and including that dot is kept and the whole column follows in double quotes |
| Sheets.ParseColumnBySplit | mimic/utils/sheet.py:150-156 | the split-on-dots, replace-last-part, join-on-dots rendering equals the closed form: the column unchanged when its last dotted part has no space, otherwise everything up to the last dot followed by the whole column in double quotes |
| Text.JoinSplit | mimic/utils/sheet.py:151-156 | joining the pieces of `s.split(c)` with `c` gives `s` back, for every string |
| Sheets.SelectStatement | mimic/utils/sheet.py:263-275 | a select starts with the `row_number() OVER () - 1 AS row_num` prefix, followed by the columns and `FROM <table>` |
| Sheets.SelectPlainColumns | mimic/utils/sheet.py:268-273 | a list of columns none of which needs quoting is selected verbatim, comma-joined |
| Sheets.CountStar | mimic/utils/sheet.py:284-285 | `count("*")` is exactly `SELECT COUNT(*) FROM <table>` |
| Sheets.CountPerColumn | mimic/utils/sheet.py:287-293 | a column list gives one `COUNT(x) AS x` per column, in order, with `x` parsed; a column needing no quoting appears verbatim |
| Sheets.SheetQuery.Parse | mimic/utils/sheet.py:181-184 | the query's statement is `ParseFragments` of its fragments: they are space-joined and followed by `;` |
| Sheets.ParseFragments | mimic/utils/sheet.py:181-184 | the statement ends in `;` and everything before it is the fragments joined by single spaces |
| Sheets.ParseSingleTerminator | mimic/utils/sheet.py:181-184 | when no fragment holds `;`, the statement holds exactly one, at its end |
| Sheets.ContainsWhere | mimic/utils/sheet.py:195 | true exactly when some fragment starts with "where" in any letter case |
| Sheets.WhereClausesShape | mimic/utils/sheet.py:199-204 | within one call, a clause opens a WHERE exactly when it is the first and the query had none; every other clause is `AND c` or `OR c` |
| Sheets.WhereFragmentOpens | mimic/utils/sheet.py:195-206 | the fragment a where call adds opens a WHERE exactly when the query had none and at least one condition was given |
| Sheets.WhereKeepsOneWhere | mimic/utils/sheet.py:186-206 | where adds exactly one fragment, keeps the earlier ones, has a WHERE afterwards exactly when it had one or got a condition, and preserves at-most-one-WHERE |
| Sheets.WhereChain | mimic/utils/sheet.py:186-206 | N single-condition where calls append exactly the N clauses one batched call would build, one fragment each |
| Sheets.ChainedWhere | mimic/utils/sheet.py:199-204 | on a query without a filter, a chain of where calls leaves one `WHERE` fragment (the first call's) followed by the others as `AND`/`OR` fragments in call order, and at most one WHERE |
| Sheets.BatchedWhereMatchesChain | mimic/utils/sheet.py:186-206 | for every query, empty or not, one where over a non-empty batch of conditions parses to the same statement as one where call per condition |
| Sheets.EmptyWhereAddsBlank | mimic/utils/sheet.py:195-206 | a where over no condition still appends an empty fragment, so a non-empty query parses with a space before `;`, unlike no where call at all |
| Sheets.FindByRowIdShape | mimic/utils/sheet.py:208-223 | the result is exactly two fragments, the old query wrapped as `SELECT * FROM (...)` and `WHERE row_num IN (...)`, with at most one WHERE, whatever filters the old query had |
| Sheets.RowIdListRoundTrip | mimic/utils/sheet.py:217 | for every list of row ids, the empty one included, the comma-joined rendering decodes back to exactly the requested ids, in order |
| Text.IntRoundTrip | mimic/utils/sheet.py:217 | `str(i)` parses back to `i` for every integer |
| Sheets.FindByIdClause | mimic/utils/sheet.py:225-236 | find_by_id appends one fragment: `WHERE` before the condition when the query had no filter, `AND` otherwise; it preserves at-most-one-WHERE |
| Sheets.IdListRoundTrip | mimic/utils/sheet.py:234 | for every list of ids free of commas, the empty one included, the quoted comma-joined IN list decodes back to exactly those ids, in order |
| Sheets.JoinFragment | mimic/utils/sheet.py:238-248 | a join fragment is `<MODE> JOIN <right table>`, followed by the join constraint exactly when the mode is not natural; it never opens a WHERE |
| Sheets.LimitFragment | mimic/utils/sheet.py:250-261 | a limit fragment is `LIMIT n`, followed by ` OFFSET o` exactly when an offset is given; it never opens a WHERE |
| Sheets.StatementsOpenNoWhere | mimic/utils/sheet.py:263-330 | no statement of select, count, update, create_table, drop_table or copy_csv opens a WHERE |
| Sheets.UpdateThenFindById | mimic/utils/sheet.py:297-306 | an update followed by find_by_id gets the id filter as its WHERE clause |
| Sheets.SheetQuery.constructor | mimic/utils/sheet.py:143-147 | the new query holds the given fragment list |
| Sheets.SheetQuery.Empty | mimic/utils/sheet.py:332-334 | a fresh query with no fragments |
| Sheets.SheetQuery.Copy | mimic/utils/sheet.py:175-179 | a fresh query with the same fragments |
| Sheets.SheetQuery.AddQuery | mimic/utils/sheet.py:158-173 | exactly one fragment (the parts space-joined) is appended; in place the receiver is returned; otherwise a fresh query is returned and the receiver's fragments are unchanged |
| Sheets.SheetQuery.Where | mimic/utils/sheet.py:186-206 | the loop builds the clauses of `WhereQuery`; at-most-one-WHERE is preserved; in-place and copy semantics as for AddQuery |
| Sheets.SheetQuery.FindByRowId | mimic/utils/sheet.py:208-223 | the result holds `FindByRowIdQuery` of the old fragments, two fragments with at most one WHERE; the receiver is untouched when not in place |
| Sheets.SheetQuery.FindById | mimic/utils/sheet.py:225-236 | the result holds `FindByIdQuery` of the old fragments and keeps at-most-one-WHERE |
| Sheets.SheetQuery.Join | mimic/utils/sheet.py:238-248 | one join fragment is appended; whether the query holds a WHERE is unchanged; at-most-one-WHERE is preserved |
| Sheets.SheetQuery.Limit | mimic/utils/sheet.py:250-261 | one limit fragment is appended; whether the query holds a WHERE is unchanged; at-most-one-WHERE is preserved |
| Sheets.SheetQuery.Select | mimic/utils/sheet.py:263-275 | a fresh one-fragment query holding the select statement |
| Sheets.SheetQuery.Count | mimic/utils/sheet.py:277-295 | a fresh one-fragment query holding the count statement |
| Sheets.SheetQuery.CountEach | mimic/utils/sheet.py:288-291 | the loop yields one `COUNT(c) AS c` item per visited column, in order |
| Sheets.SheetQuery.Update | mimic/utils/sheet.py:297-306 | a fresh one-fragment query setting every field to its value, in order |
| Sheets.SheetQuery.CreateTable | mimic/utils/sheet.py:308-316 | a fresh one-fragment query creating the table with the persisted schema |
| Sheets.SheetQuery.DropTable | mimic/utils/sheet.py:318-322 | a fresh one-fragment `DROP TABLE IF EXISTS` query |
| Sheets.SheetQuery.CopyCsv | mimic/utils/sheet.py:324-330 | a fresh one-fragment COPY of the given CSV path |
| Storage.ApplyTransform | mimic/utils/sheet.py:68-69 | without a callback the frame is unchanged; with one, its step is recorded last and the columns are those it adds plus those it keeps |
| Storage.MissingColumns | mimic/utils/scaler.py:14-19 | exactly the target columns absent from the frame |
| SheetLoading.ScalerPathNotCache | mimic/utils/scaler.py:33-39 | a saved scaler never overwrites the cached CSV |
| SheetLoading.ScalerPathInjective | mimic/utils/scaler.py:37 | two scaler classes share a file only when they are the same class |
| SheetLoading.InitOrder | mimic/utils/sheet.py:45-53 | DROP (only with drop_table) strictly before CREATE; no file is touched; construction fails exactly when no scaler list was given |
| SheetLoading.DefaultConstructionFails | mimic/utils/sheet.py:19-53 | with the default arguments the table schema is the ingest schema, DROP and CREATE are sent, and then iterating the absent scaler list fails |
| SheetLoading.NewSheet | mimic/utils/sheet.py:11-39 | every setting is kept as given; the persisted schema is the ingest schema when none is given, and the given one otherwise |
| SheetLoading.Construct | mimic/utils/sheet.py:11-53 | the statements sent, the files and the outcome are those of `InitRun` |
| Storage.ReadCsv | mimic/utils/sheet.py:88-92 | reading succeeds exactly when the source exists and holds every ingest column, and yields exactly the ingest columns; otherwise it is a read error on that path (the older snapshot reads the same way, utils/sheet.py:79-83) |
| SheetLoading.FitStops | mimic/utils/sheet.py:74-76 | after a scaler's column check fails, later scalers are neither fitted nor saved |
| SheetLoading.FitFailsIff | mimic/utils/sheet.py:74-76 | fitting fails exactly when some scaler misses a target column, and then with that column error |
| SheetLoading.FitSavesEach | mimic/utils/sheet.py:74-76 | after a successful fit every scaler's file holds a fitted scaler of its class |
| SheetLoading.FitWritesOnlyScalers | mimic/utils/sheet.py:74-76 | fitting removes no file and writes only the scalers' own files |
| SheetLoading.TransformRun | mimic/utils/sheet.py:67-78 | the returned frame is the callback's output, with no scaler applied; without a scaler list nothing is written and no modelled failure occurs |
| SheetLoading.LoadFromCache | mimic/utils/sheet.py:80-86 | with a cache and no force_insert nothing is read or written, and one COPY of the cache is sent exactly when drop_table is set |
| SheetLoading.MissingIdColumnIff | mimic/utils/sheet.py:94-95 | on the source path the load fails with the id-column error exactly when the id column is not an ingest column |
| SheetLoading.FailedLoadInsertsNothing | mimic/utils/sheet.py:80-103 | a failed load sends no statement and leaves the cached CSV as it was |
| SheetLoading.LoadFromSource | mimic/utils/sheet.py:88-103 | a successful load from the source sends one COPY of the cache; the cache holds the persisted fields and only the callback's step (no scaler); every scaler has been saved |
| SheetLoading.LoadTwice | mimic/utils/sheet.py:80-103 | loading again without force_insert takes the cached path: nothing written, only the COPY when drop_table is set |
| SheetLoading.InsertData | mimic/utils/sheet.py:63-65 | exactly one COPY statement is sent and no file changes |
| SheetLoading.TransformData | mimic/utils/sheet.py:67-78 | the loop's frame, files and error are those of `TransformRun`; nothing is sent to the database |
| SheetLoading.LoadCsv | mimic/utils/sheet.py:80-103 | the statements sent, the files and the error are those of `LoadRun` |
| LegacySheets.SheetQuery.constructor | utils/sheet.py:98-102 | the new query holds the given fragment list |
| LegacySheets.SheetQuery.Empty | utils/sheet.py:214-216 | a fresh query with no fragments |
| LegacySheets.SheetQuery.Parse | utils/sheet.py:121-124 | the fragments space-joined followed by `;`, the same rendering as the current snapshot |
| LegacySheets.SheetQuery.AddQuery | utils/sheet.py:104-119 | exactly one fragment appended; the receiver is returned in place, and is unchanged otherwise |
| LegacySheets.SheetQuery.FindByRowId | utils/sheet.py:126-140 | the query becomes exactly one fragment holding the subquery and its `WHERE row_num IN (...)` filter |
| LegacySheets.SheetQuery.FindById | utils/sheet.py:142-153 | one fragment is appended, and it opens a WHERE |
| LegacySheets.SheetQuery.Join | utils/sheet.py:155-169 | one join fragment of the two sheets is appended |
| LegacySheets.SheetQuery.Select | utils/sheet.py:171-183 | a fresh one-fragment select with the columns as given |
| LegacySheets.SheetQuery.Count | utils/sheet.py:185-189 | a fresh one-fragment count of all rows |
| LegacySheets.SheetQuery.CreateTable | utils/sheet.py:191-198 | a fresh one-fragment CREATE with `name type` pairs joined by `, ` |
| LegacySheets.SheetQuery.DropTable | utils/sheet.py:200-204 | a fresh one-fragment DROP |
| LegacySheets.SheetQuery.CopyCsv | utils/sheet.py:206-212 | a fresh one-fragment COPY |
| LegacySheets.FindByIdAlwaysWhere | utils/sheet.py:142-153 | find_by_id always appends `WHERE col IN (ids)` with the ids unquoted, whatever the query holds |
| LegacySheets.FindByIdAfterWhere | utils/sheet.py:151-153 | on a query that already filters, find_by_id leaves two WHERE fragments |
| LegacySheets.FindByIdTwice | utils/sheet.py:151 | two chained find_by_id calls always leave two WHERE fragments |
| LegacySheets.FindByRowIdMatchesNewer | utils/sheet.py:126-140 | for at most one row id, the single older fragment parses to the same statement as the newer two fragments |
| LegacySheets.JoinOnlyLeftRightHaveOn | utils/sheet.py:155-169 | the ON clause on the id columns is added exactly for left and right joins; every other mode gives only `<MODE> JOIN <table>` |
| LegacySheets.CountAllRows | utils/sheet.py:185-189 | count is exactly `SELECT COUNT(*) FROM <table>`, the same as the newer `count("*")` |
| LegacySheets.SelectMatchesNewer | utils/sheet.py:171-183 | the older select equals the newer one whenever no column needs quoting |
| LegacySheets.InitOrder | utils/sheet.py:42-53 | DROP (only with drop_table) strictly before CREATE |
| LegacySheets.Init | utils/sheet.py:42-45 | the statements sent are `InitStatements`; no file changes |
| LegacySheets.TransformData | utils/sheet.py:59-69 | without scalers the result is the transformed frame; on success the columns are the transformed ones and the steps are the transform's followed by every scaler's, in list order; with scalers it fails exactly when some scaler misses a target column of the transformed frame, and the only modelled failure is that missing-column error |
| LegacySheets.ScalersInOrder | utils/sheet.py:66-67 | successful scaling keeps the columns and appends every scaler's step, in list order |
| LegacySheets.ScalingStops | utils/sheet.py:66-67 | after a scaler's column check fails, later scalers are not applied |
| LegacySheets.ScalingFailsIff | utils/scaler.py:17-22 | scaling fails exactly when some scaler misses one of its target columns in the frame, and then with a missing-columns error; that is the only modelled scaling failure |
| LegacySheets.TransformFrame | utils/sheet.py:59-69 | the loop's result is `TransformData`: the callback, then each scaler in turn |
| LegacySheets.LoadFromCache | utils/sheet.py:71-77 | with a cache and no force_insert nothing is read or written, and one COPY is sent exactly when drop_table is set |
| LegacySheets.FailedLoadChangesNothing | utils/sheet.py:79-88 | a failed load sends nothing and changes no file; on the source path it fails with the id-column error exactly when the id column is not an ingest column |
| LegacySheets.LoadFromSource | utils/sheet.py:79-94 | a successful load sends one COPY; the cache holds the callback's step and then every scaler's step in list order; a second load takes the cached path |
| LegacySheets.InsertData | utils/sheet.py:55-57 | exactly one COPY statement is sent and no file changes |
| LegacySheets.LoadCsv | utils/sheet.py:71-94 | the statements sent, the files and the error are those of `LoadRun` |
| Datasets.StandingQueryShape | mimic/datasets/base.py:103-119 | the standing query is the base statement plus exactly one join fragment per condition, in list order; the count query counts all rows and the main query selects the dataset's columns when no columns are given; no fragment opens a WHERE |
| Datasets.StandingQueryNoWhere | mimic/datasets/base.py:103-119 | no fragment of a standing query opens a WHERE |
| Datasets.FilteredStandingQuery | mimic/datasets/base.py:121-122 | filtering the main query by id adds exactly one fragment, which opens its only WHERE |
| Datasets.LoadAllStep | mimic/datasets/base.py:99-101 | each sheet's load runs on the files the earlier sheets left |
| Datasets.LoadAllStops | mimic/datasets/base.py:99-101 | after a sheet's load fails, no later sheet is loaded |
| Datasets.LoadAllFromCache | mimic/datasets/base.py:99-101 | when every sheet is cached, loading writes nothing, fails nowhere and sends one COPY per sheet with drop_table, in sheet order |
| Datasets.BaseDataset.CalcQuery | mimic/datasets/base.py:103-119 | a fresh query holding the standing query: count or select on the first condition's left sheet, then one join per condition |
| Datasets.BaseDataset.JoinAll | mimic/datasets/base.py:116-117 | the loop appends exactly the join fragments of the conditions, in order |
| Datasets.BaseDataset.constructor | mimic/datasets/base.py:32-47 | the settings as given, and two fresh, distinct standing queries (main and count) |
| Datasets.BaseDataset.Open | mimic/datasets/base.py:17-60 | no join condition fails before anything else; with skip_load no sheet is loaded and no statement is sent (the download that may run first is not modelled); a missing dataset fails before any load; otherwise the sheets are loaded in order and a load error is reported |
| Datasets.BaseDataset.LoadData | mimic/datasets/base.py:99-101 | the statements sent, the files and the error are those of `LoadAll` |
| Datasets.BaseDataset.GetById | mimic/datasets/base.py:121-126 | the statement sent is find_by_id applied to a copy of the main query; on the standing main query that is the query plus one `WHERE` id filter; the main query's fragments are unchanged |
| Datasets.BaseDataset.GetItem | mimic/datasets/base.py:133-134 | the index is returned unchanged |

## Left out

- The database is only the list of statement strings sent to it. Query results, `fetch_df`, `fetch_one` and the value of `__len__` are not modelled.
- Datasets.BaseDataset.GetById: returns the statement it sends instead of the fetched DataFrame. Dropping the `row_num` column afterwards is not modelled.
- Datasets.BaseDataset.CalcQuery: requires at least one join condition, as `Open` only calls it then.
- Datasets.BaseDataset.constructor: requires at least one join condition. The IndexError that `join_conditions[0]` raises on an empty list is modelled in `Open` as `NoJoinConditions`.
- Datasets.BaseDataset.Open: the existence check after the optional download is the parameter `present`. With download=True, `_download` runs before the skip_load return (mimic/datasets/base.py:49-52); it calls `_check_exists` and may create the raw folder and fetch archives (mimic/datasets/base.py:85-97). None of that is modelled, so with skip_load the model only states that nothing is loaded and nothing is sent. Download, credentials, archive extraction and MD5 checks are I/O. The `resources` list built from the abstract `_files` is not modelled.
- `collate_fn`, tqdm progress, torch tensors and image decoding belong to the concrete datasets, not this core.
- Scaler statistics are not modelled. `fit`, `transform`, the older `train` flag and joblib serialisation are floating-point and library work. A scaler is its class name and target columns. Fitting and saving write a `FittedScaler` file. Applying one records its class name among the frame's steps.
- SheetLoading.TransformRun, LegacySheets.TransformData, LegacySheets.ScalingFailsIff: the transform callback and the scaler library's `fit` and `transform` are assumed not to raise. In the source anything they raise propagates out of `_transform_data` (mimic/utils/sheet.py:68-69, utils/sheet.py:60-61). One case is left out this way: in the older snapshot a scaler built with `train=False` is a fresh, unfitted scaler, and its `transform` raises (utils/scaler.py:27). The only failures these members state are the modelled column errors. A load that fails in either of these ways would still send nothing and write no cache, as with the modelled failures.
- Sheets.UpdateStatement, Sheets.SheetQuery.Update: each value is its `str()` rendering, already a string, and it is placed in the statement unquoted, as the source does. The `dict` of fields is an ordered list of pairs, so a repeated key can occur only in the model.
- SheetLoading.Construct: `_load_scalers` only replaces each scaler's fitted statistics from disk when the file exists. That effect is not modelled; only the failure on an absent list is.
- The transform callback is described by the columns it adds and removes and a step name. In the current snapshot it also gets the database connection, and what it does there is not modelled. The method `Sheet.transform` (mimic/utils/sheet.py:105-108) is never reached, because the constructor's attribute of the same name (line 32) shadows it. The model therefore uses the callback.
- pandas is reduced to column names. `read_csv` dtypes, row contents, `to_csv` formatting and `index=False` are not modelled. A failing read (missing file or missing requested column) is one `ReadError`.
- Paths are joined with `/`, as `os.path.join` does for relative parts. Absolute parts and `os.makedirs` are not modelled.
- `upper`/`lower` map ASCII letters only. The arguments they receive here are the mode and operator literals and query fragments.
- `Literal` arguments are datatypes (`JoinMode`, `Operator`). A string outside the annotation is not modelled. The older `join` accepts all five `JoinMode` values; its annotation lists three.
- A `Union[str, list[str]]` argument is a sequence, with a single string as the one-element case. The `columns` argument of select and count is `Columns`. A raw string other than `"*"` passed to `count` is iterated character by character, as the source does.
- The Python list behind a query is a value here. A caller's list passed to the constructor is not shared with the query, so aliasing through it is not captured.
- What the statements mean when the database evaluates them is not modelled. This covers the rows a join or an `IN` filter returns and their order.

## Findings

| source | as written | input that shows it | evidently intended | confidence | as-written member | corrected member |
|---|---|---|---|---|---|---|
| utils/sheet.py:151 | `find_by_id` always appends `WHERE col IN (...)` | `find_by_id` on a query already holding a WHERE fragment, or two chained `find_by_id` calls: the statement holds two WHERE keywords | the id filter joins an existing WHERE with `AND`, as the current snapshot's `find_by_id` does through `where` | high, not executed | LegacySheets.FindByIdTwice | Sheets.FindByIdClause |
