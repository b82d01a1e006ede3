/**
 * What the sheets act on, abstracted: the embedded database connection
 * becomes the log of the statement strings sent to it, the file system a map
 * from path to file, and a pandas DataFrame the set of its column names
 * together with the list of the transform steps applied to it so far.
 */
module Storage {
  import opened Wrappers

  /** A DataFrame: its column names and the steps that produced its values, in order. */
  datatype Frame = Frame(columns: set<string>, applied: seq<string>)

  /**
   * A row/column derivation callback, described by what it does to the
   * columns; running it records `name` among the applied steps.
   */
  datatype Transform = Transform(name: string, added: set<string>, removed: set<string>)

  /** A scaler of class `kind` bound to its target columns. */
  datatype Scaler = Scaler(kind: string, transformColumns: seq<string>)

  datatype File =
    | Csv(frame: Frame)          // a CSV file: raw source or transformed cache
    | FittedScaler(scaler: Scaler) // a serialised fitted scaler

  datatype LoadError =
    | ReadError(path: string)                            // read_csv failed: no file, or a requested column is absent
    | MissingIdColumn(idColumn: string)                  // ValueError: the id column is not in the frame
    | MissingScalerColumns(kind: string, missing: seq<string>) // ValueError from a scaler's column check
    | MissingTableFields                                 // KeyError: selecting the persisted fields
    | ScalersNotIterable                                 // TypeError: iterating a scaler list that is None

  /** The transform callback, when there is one, applied to a frame. */
  function ApplyTransform(t: Option<Transform>, df: Frame): (r: Frame)
    ensures t.None? ==> r == df
    ensures t.Some? ==> r.applied == df.applied + [t.value.name]
    ensures t.Some? ==> forall c :: c in r.columns <==> c in t.value.added || (c in df.columns && c !in t.value.removed)
  {
    match t
    case None => df
    case Some(tr) => Frame((df.columns - tr.removed) + tr.added, df.applied + [tr.name])
  }

  /** The keys of an ordered column -> type mapping. */
  function Keys(fields: seq<(string, string)>): set<string>
  {
    set p | p in fields :: p.0
  }

  /**
   * Reading a source CSV restricted to the ingest columns, in both
   * snapshots: the frame holds exactly the requested columns; a missing file
   * or a requested column the file lacks is an error on that path.
   */
  function ReadCsv(files: map<string, File>, path: string, columns: seq<(string, string)>): (r: Result<Frame, LoadError>)
    ensures r.Success? <==> path in files && files[path].Csv? && Keys(columns) <= files[path].frame.columns
    ensures r.Success? ==> r.value.columns == Keys(columns) && r.value.applied == files[path].frame.applied
    ensures r.Failure? ==> r.error == ReadError(path)
  {
    if path in files && files[path].Csv? && Keys(columns) <= files[path].frame.columns then
      Success(Frame(Keys(columns), files[path].frame.applied))
    else Failure(ReadError(path))
  }

  /**
   * The scaler's column check (mimic/utils/scaler.py:14-19): the target
   * columns absent from the frame, in the scaler's order.
   */
  function MissingColumns(columns: seq<string>, df: Frame): (r: seq<string>)
    ensures forall c :: c in r <==> c in columns && c !in df.columns
    ensures |r| <= |columns|
    decreases |columns|
  {
    if |columns| == 0 then []
    else (if columns[0] in df.columns then [] else [columns[0]]) + MissingColumns(columns[1..], df)
  }

  /** Which columns are missing depends only on the frame's columns. */
  lemma {:induction false} MissingColumnsSameFrame(columns: seq<string>, a: Frame, b: Frame)
    requires a.columns == b.columns
    ensures MissingColumns(columns, a) == MissingColumns(columns, b)
    decreases |columns|
  {
    if |columns| > 0 {
      MissingColumnsSameFrame(columns[1..], a, b);
    }
  }

  /** Every scaler finds all its target columns in the frame. */
  predicate AllFit(scalers: seq<Scaler>, df: Frame)
  {
    forall k :: 0 <= k < |scalers| ==> MissingColumns(scalers[k].transformColumns, df) == []
  }

  lemma AllFitLast(scalers: seq<Scaler>, df: Frame)
    requires |scalers| > 0
    ensures AllFit(scalers, df) <==>
      AllFit(scalers[..|scalers| - 1], df) && MissingColumns(scalers[|scalers| - 1].transformColumns, df) == []
  {
    var init := scalers[..|scalers| - 1];
    assert forall k :: 0 <= k < |init| ==> init[k] == scalers[k];
  }

  /** The effect of a step sequence: statements sent, files afterwards, error raised. */
  datatype Run = Run(statements: seq<string>, files: map<string, File>, error: Option<LoadError>)

  /**
   * The database connection and the file system it loads from. `log` holds
   * every statement string executed, in order; `files` the files on disk.
   */
  class Backend {
    var log: seq<string>
    var files: map<string, File>

    constructor (initialFiles: map<string, File>)
      ensures log == [] && files == initialFiles
    {
      log := [];
      files := initialFiles;
    }

    /** `exec`: the statement string is sent to the connection. */
    method Exec(statement: string)
      modifies this
      ensures log == old(log) + [statement]
      ensures files == old(files)
    {
      log := log + [statement];
    }

    /** Writes (or overwrites) one file. */
    method Write(path: string, f: File)
      modifies this
      ensures files == old(files)[path := f]
      ensures log == old(log)
    {
      files := files[path := f];
    }
  }
}
