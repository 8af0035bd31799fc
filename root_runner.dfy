/** `DBConnectionRunner` of the top-level runner.py.  Its
    `execute_query_multi_db` runs the sequential loop only when `parallel`
    is false and then always runs the thread-pool loop as well, both
    recording under `config["name"]` into the same two dictionaries; the
    concatenated table is exported when a save path was given. */
module RootRunner {
  import opened Python
  import opened Dicts
  import opened Types
  import opened Sql
  import opened Tables
  import opened Managers
  import opened Execution
  import opened Paths

  /** The keyword arguments of `execute_query_multi_db`; the last two are
      accepted and never used. */
  datatype Options = Options(commit: bool, parallel: bool, addConnectionColumn: bool, connectionColumnName: string)

  // ---------------------------------------------------------------------
  // The two passes

  /** One step of the sequential loop: for a success the DataFrame is
      built before `config["name"]` is read, for a failure only the name is
      read; the outcome is stored under the name. */
  function Record(acc: Collected, o: Outcome, config: Value): (r: Result<Collected>)
    ensures !Tabular(o) ==> r == Err(ShapeMismatch)
  {
    if !Tabular(o) then Err(ShapeMismatch)
    else
      var name :- Subscript(config, "name");
      Process(acc, o, name, "", false)
  }

  /** The sequential loop, from `acc` on. */
  function SequentialPass(acc: Collected, connections: Dict<string, Value>, engines: Dict<string, Engine>, server: Server, query: string, commit: bool): Result<Collected>
    decreases |connections|
  {
    if connections == [] then Ok(acc)
    else
      var next :- Record(acc, ExecuteQuery(engines, server, query, connections[0].0, commit).outcome, connections[0].1);
      SequentialPass(next, connections[1..], engines, server, query, commit)
  }

  /** When every configuration has a name, the sequential loop records the
      outcomes under those names in registry order, like the thread-pool
      loop would with that completion order. */
  lemma {:induction false} SequentialFrom(acc: Collected, connections: Dict<string, Value>, engines: Dict<string, Engine>, server: Server, query: string, commit: bool, i: nat)
    requires i <= |connections| && Names(connections).Ok?
    ensures SequentialPass(acc, connections[i..], engines, server, query, commit) ==
      Completed(acc, Outcomes(connections, engines, server, query, commit), Values(Names(connections).value), Range(|connections|)[i..], "", false)
    decreases |connections| - i
  {
    var outcomes := Outcomes(connections, engines, server, query, commit);
    var names := Values(Names(connections).value);
    var order := Range(|connections|);
    if i == |connections| {
      assert connections[i..] == [] && order[i..] == [];
    } else {
      CompletedStep(acc, outcomes, names, order, i, "", false);
      assert connections[i..][0] == connections[i] && connections[i..][1..] == connections[i + 1..];
      assert NameOf(connections[i].0, connections[i].1) == Ok(names[i]);
      var next := Record(acc, outcomes[i], connections[i].1);
      if next.Ok? {
        SequentialFrom(next.value, connections, engines, server, query, commit, i + 1);
      }
    }
  }

  /** What the sequential loop leaves, `parallel` false, or nothing. */
  function FirstPass(connections: Dict<string, Value>, engines: Dict<string, Engine>, server: Server, query: string, options: Options): Result<Collected>
  {
    if options.parallel then Ok(NothingCollected)
    else SequentialPass(NothingCollected, connections, engines, server, query, options.commit)
  }

  /** The thread-pool loop, recording on top of `acc`. */
  function PoolPass(acc: Collected, connections: Dict<string, Value>, engines: Dict<string, Engine>, server: Server, query: string, commit: bool, completion: seq<nat>): Result<Collected>
    requires IsPermutation(completion, |connections|)
  {
    var names :- Names(connections);
    Completed(acc, Outcomes(connections, engines, server, query, commit), Values(names), completion, "", false)
  }

  /** Both loops: `first` answers the sequential pass, `second` the
      thread-pool pass (the databases may have changed in between, for
      instance by a commit of the first pass). */
  function Gathered(connections: Dict<string, Value>, engines: Dict<string, Engine>, first: Server, second: Server, query: string, options: Options, completion: seq<nat>): Result<Collected>
    requires IsPermutation(completion, |connections|)
  {
    var acc :- FirstPass(connections, engines, first, query, options);
    PoolPass(acc, connections, engines, second, query, options.commit, completion)
  }

  // ---------------------------------------------------------------------
  // Export

  /** The format `export_to_file` uses: the one given, or the suffix
      without its leading dot. */
  function ExportFormat(p: FilePath, format: Option<string>): string
  {
    if format.Some? then format.value else LStrip(Suffix(p), '.')
  }

  /** What `export_to_file` writes. */
  datatype Written = NothingWritten | Excel(path: FilePath, table: Table) | Parquet(path: FilePath, table: Table)

  /** `export_to_file(df, save_path, format)`: only "xlsx" and "parquet"
      write anything. */
  function ExportToFile(df: Table, p: FilePath, format: Option<string>): (w: Written)
    ensures w.NothingWritten? <==> ExportFormat(p, format) != "xlsx" && ExportFormat(p, format) != "parquet"
    ensures !w.NothingWritten? ==> w.path == p && w.table == df
  {
    var f := ExportFormat(p, format);
    if f == "xlsx" then Excel(p, df)
    else if f == "parquet" then Parquet(p, df)
    else NothingWritten
  }

  /** With no format given, a name `stem.ext` selects the format `ext`. */
  lemma FormatFromSuffix(parent: string, stem: string, ext: string)
    requires stem != [] && ext != [] && '.' !in ext
    ensures ExportFormat(FilePath(parent, stem + "." + ext), None) == ext
  {
    var name := stem + "." + ext;
    LastIndexOfAfter(stem, '.', ext);
    assert SuffixStart(name) == Some(|stem|);
    assert name[|stem|..] == "." + ext;
    assert Suffix(FilePath(parent, name)) == "." + ext;
    assert ("." + ext)[1..] == ext && ext[0] != '.';
  }

  /** The return value `(df, failed_extractions)`, or the exception raised,
      and what was exported. */
  datatype Answer = Answer(result: Result<(Table, Dict<Value, Error>)>, written: Written)

  /** `execute_query_multi_db(query, **options)` of a runner with
      `save_path` and `file_format`. */
  function MultiDb(connections: Dict<string, Value>, engines: Dict<string, Engine>, first: Server, second: Server, query: string,
                   options: Options, completion: seq<nat>, savePath: Option<FilePath>, fileFormat: Option<string>): Answer
    requires IsPermutation(completion, |connections|)
  {
    match Gathered(connections, engines, first, second, query, options, completion)
    case Err(e) => Answer(Err(e), NothingWritten)
    case Ok(c) =>
      match Concat(Values(c.data))
      case Err(e) => Answer(Err(e), NothingWritten)
      case Ok(df) => Answer(Ok((df, c.failed)), if savePath.Some? then ExportToFile(df, savePath.value, fileFormat) else NothingWritten)
  }

  // ---------------------------------------------------------------------
  // The run

  /** `execute_query_multi_db`.  `executed` lists the connections
      `execute_query` was called for, in order. */
  method ExecuteQueryMultiDb(manager: Manager, first: Server, second: Server, query: string, options: Options, completion: seq<nat>,
                             savePath: Option<FilePath>, fileFormat: Option<string>)
    returns (r: Result<(Table, Dict<Value, Error>)>, written: Written, executed: seq<string>)
    requires IsPermutation(completion, |manager.connections|)
    ensures Answer(r, written) == MultiDb(manager.connections, manager.engines, first, second, query, options, completion, savePath, fileFormat)
    ensures r.Ok? ==> executed == if options.parallel then Keys(manager.connections) else Keys(manager.connections) + Keys(manager.connections)
  {
    var gathered;
    gathered, executed := RunBothPasses(manager.connections, manager.engines, first, second, query, options, completion);
    if gathered.Err? {
      return Err(gathered.error), NothingWritten, executed;
    }
    var df := Concat(Values(gathered.value.data));
    if df.Err? {
      return Err(df.error), NothingWritten, executed;
    }
    written := NothingWritten;
    if savePath.Some? {
      written := ExportToFile(df.value, savePath.value, fileFormat);
    }
    r := Ok((df.value, gathered.value.failed));
  }

  /** The sequential loop when `parallel` is false, then the thread-pool
      loop on top of what it recorded. */
  method RunBothPasses(connections: Dict<string, Value>, engines: Dict<string, Engine>, first: Server, second: Server, query: string,
                       options: Options, completion: seq<nat>)
    returns (r: Result<Collected>, executed: seq<string>)
    requires IsPermutation(completion, |connections|)
    ensures r == Gathered(connections, engines, first, second, query, options, completion)
    ensures r.Ok? ==> executed == if options.parallel then Keys(connections) else Keys(connections) + Keys(connections)
  {
    var acc := NothingCollected;
    executed := [];
    if !options.parallel {
      var firstPass;
      firstPass, executed := RunSequentially(connections, engines, first, query, options.commit);
      if firstPass.Err? {
        return Err(firstPass.error), executed;
      }
      acc := firstPass.value;
    }
    var futures, names, submitted := Submit(connections, engines, second, query, options.commit);
    executed := executed + submitted;
    if names.Err? {
      return Err(names.error), executed;
    }
    r := CollectInOrder(acc, futures, Values(names.value), completion, "", false);
  }

  /** The sequential loop. */
  method RunSequentially(connections: Dict<string, Value>, engines: Dict<string, Engine>, server: Server, query: string, commit: bool)
    returns (r: Result<Collected>, executed: seq<string>)
    ensures r == SequentialPass(NothingCollected, connections, engines, server, query, commit)
    ensures r.Ok? ==> executed == Keys(connections)
  {
    ghost var target := SequentialPass(NothingCollected, connections, engines, server, query, commit);
    var acc := NothingCollected;
    executed := [];
    var i := 0;
    while i < |connections|
      invariant 0 <= i <= |connections|
      invariant executed == Keys(connections)[..i]
      invariant SequentialPass(acc, connections[i..], engines, server, query, commit) == target
    {
      var (connection, config) := connections[i];
      var result := ExecuteQuery(engines, server, query, connection, commit);
      KeysPrefix(connections, i);
      executed := executed + [connection];
      assert connections[i..][0] == connections[i] && connections[i..][1..] == connections[i + 1..];
      var next := Record(acc, result.outcome, config);
      if next.Err? {
        return Err(next.error), executed;
      }
      acc := next.value;
      i := i + 1;
    }
    assert connections[i..] == [];
    return Ok(acc), executed;
  }

  // ---------------------------------------------------------------------
  // Properties

  /** With `parallel` false and distinct names, each name ends up with the
      thread-pool pass's outcome in its own dictionary and keeps the
      sequential pass's outcome in the other: neither dictionary is
      cleared between the passes, so a connection that succeeds first and
      fails second is in both. */
  lemma TwoPasses(connections: Dict<string, Value>, engines: Dict<string, Engine>, first: Server, second: Server, query: string,
                  options: Options, completion: seq<nat>, i: nat)
    requires IsPermutation(completion, |connections|) && !options.parallel && i < |connections|
    requires Names(connections).Ok? && Distinct(Values(Names(connections).value))
    requires forall j :: 0 <= j < |connections| ==> Tabular(Outcomes(connections, engines, first, query, options.commit)[j])
    requires forall j :: 0 <= j < |connections| ==> Tabular(Outcomes(connections, engines, second, query, options.commit)[j])
    ensures Gathered(connections, engines, first, second, query, options, completion).Ok?
    ensures var c := Gathered(connections, engines, first, second, query, options, completion).value;
      var name := Values(Names(connections).value)[i];
      var o1 := Outcomes(connections, engines, first, query, options.commit)[i];
      var o2 := Outcomes(connections, engines, second, query, options.commit)[i];
      Get(c.data, name) == (if o2.Success? then Some(Frame(o2, name, "", false)) else if o1.Success? then Some(Frame(o1, name, "", false)) else None) &&
      Get(c.failed, name) == (if o2.Failure? then Some(o2.error) else if o1.Failure? then Some(o1.error) else None)
    ensures var c := Gathered(connections, engines, first, second, query, options, completion).value;
      var name := Values(Names(connections).value)[i];
      (Outcomes(connections, engines, first, query, options.commit)[i].Success? &&
       Outcomes(connections, engines, second, query, options.commit)[i].Failure?) ==>
        name in Keys(c.data) && name in Keys(c.failed)
  {
    var n := |connections|;
    var names := Values(Names(connections).value);
    var outcomes1 := Outcomes(connections, engines, first, query, options.commit);
    var outcomes2 := Outcomes(connections, engines, second, query, options.commit);
    SequentialFrom(NothingCollected, connections, engines, first, query, options.commit, 0);
    assert connections[0..] == connections && Range(n)[0..] == Range(n);
    RangeIsPermutation(n);
    CompletedPermutation(NothingCollected, outcomes1, names, Range(n), "", false);
    var acc := FirstPass(connections, engines, first, query, options).value;
    CompletedPermutation(acc, outcomes2, names, completion, "", false);
    IndexOfName(names, i);
  }

  /** The origin-column arguments change nothing. */
  lemma ConnectionColumnIgnored(connections: Dict<string, Value>, engines: Dict<string, Engine>, first: Server, second: Server, query: string,
                                options: Options, completion: seq<nat>, savePath: Option<FilePath>, fileFormat: Option<string>,
                                addConnectionColumn: bool, connectionColumnName: string)
    requires IsPermutation(completion, |connections|)
    ensures MultiDb(connections, engines, first, second, query, options, completion, savePath, fileFormat) ==
      MultiDb(connections, engines, first, second, query, options.(addConnectionColumn := addConnectionColumn, connectionColumnName := connectionColumnName),
              completion, savePath, fileFormat)
  {
  }

  /** Nothing is exported without a save path; with one, the concatenated
      table is written in the chosen format, if that is "xlsx" or
      "parquet". */
  lemma ExportOnlyWithSavePath(connections: Dict<string, Value>, engines: Dict<string, Engine>, first: Server, second: Server, query: string,
                               options: Options, completion: seq<nat>, savePath: Option<FilePath>, fileFormat: Option<string>)
    requires IsPermutation(completion, |connections|)
    ensures var a := MultiDb(connections, engines, first, second, query, options, completion, savePath, fileFormat);
      (savePath.None? || a.result.Err? ==> a.written == NothingWritten) &&
      (savePath.Some? && a.result.Ok? ==>
        (a.written.NothingWritten? <==> ExportFormat(savePath.value, fileFormat) !in {"xlsx", "parquet"}) &&
        (!a.written.NothingWritten? ==> a.written.table == a.result.value.0 && a.written.path == savePath.value))
  {
  }
}
