/** `DBConnectionRunner.execute_query_multi_db` of
    db_tools/database/runner.py: look the run up in the result cache,
    otherwise run the query on every connection (one after the other, or
    through a thread pool whose completion order is a permutation given
    from outside), record each outcome, concatenate the tables and store
    the result in the cache.  The runner works on the connection and
    engine tables of a `Managers.Manager`. */
module DbRunner {
  import opened Python
  import opened Dicts
  import opened Sql
  import opened Tables
  import opened Managers
  import opened Execution

  /** The keyword arguments of `execute_query_multi_db`. */
  datatype Options = Options(
    commit: bool,
    parallel: bool,
    addConnectionColumn: bool,
    connectionColumnName: string,
    noCache: bool,
    ignoreCache: bool)

  /** The defaults of the signature. */
  const Defaults := Options(false, true, true, "connection", false, false)

  /** What `_cache_query_result` stores: the table, as a parquet file, and
      the failed extractions, pickled. */
  datatype CacheEntry = CacheEntry(table: Table, failed: Dict<Value, Error>)

  /** The `.cache` directory, indexed by the string whose hash names the
      files of an entry. */
  class ResultCache {
    var entries: map<string, CacheEntry>

    constructor ()
      ensures entries == map[]
    {
      entries := map[];
    }

    /** `_cache_query_result`: writing both files replaces any entry of
        the same key. */
    method Store(key: string, table: Table, failed: Dict<Value, Error>)
      modifies this
      ensures entries == old(entries)[key := CacheEntry(table, failed)]
    {
      entries := entries[key := CacheEntry(table, failed)];
    }
  }

  /** The string that is hashed into the cache file name: the query
      followed by the connection names joined by commas. */
  function CacheKey(query: string, names: seq<string>): string
  {
    query + Join(",", names)
  }

  /** `answer.lower() == "s"`. */
  predicate Accepts(answer: string)
  {
    answer == "s" || answer == "S"
  }

  /** The cache is consulted, has the entry, and the user accepts it. */
  predicate CacheHit(cached: map<string, CacheEntry>, key: string, ignoreCache: bool, answer: string)
  {
    !ignoreCache && key in cached && Accepts(answer)
  }

  /** The `data` and `failed_extractions` dictionaries after the thread
      pool loop, which records under `config["name"]`. */
  function Pooled(connections: Dict<string, Value>, engines: Dict<string, Engine>, server: Server, query: string, options: Options, completion: seq<nat>): Result<Collected>
    requires IsPermutation(completion, |connections|)
  {
    var names :- Names(connections);
    Completed(NothingCollected, Outcomes(connections, engines, server, query, options.commit), Values(names), completion,
              options.connectionColumnName, options.addConnectionColumn)
  }

  /** The same after the sequential loop, which records under the
      registry key, in registry order. */
  function Sequential(connections: Dict<string, Value>, engines: Dict<string, Engine>, server: Server, query: string, options: Options): Result<Collected>
  {
    Completed(NothingCollected, Outcomes(connections, engines, server, query, options.commit), RegistryNames(connections), Range(|connections|),
              options.connectionColumnName, options.addConnectionColumn)
  }

  function Gathered(connections: Dict<string, Value>, engines: Dict<string, Engine>, server: Server, query: string, options: Options, completion: seq<nat>): Result<Collected>
    requires options.parallel ==> IsPermutation(completion, |connections|)
  {
    if options.parallel then Pooled(connections, engines, server, query, options, completion)
    else Sequential(connections, engines, server, query, options)
  }

  /** The return value of a run, or the exception it raises, and the
      cache afterwards. */
  datatype Answer = Answer(result: Result<Table>, cache: map<string, CacheEntry>)

  /** `execute_query_multi_db(query, **options)`, with `answer` the reply
      to the prompt that is shown when a cache entry exists. */
  function MultiDb(connections: Dict<string, Value>, engines: Dict<string, Engine>, server: Server, cached: map<string, CacheEntry>,
                   query: string, options: Options, answer: string, completion: seq<nat>): Answer
    requires options.parallel ==> IsPermutation(completion, |connections|)
  {
    var key := CacheKey(query, Keys(connections));
    if CacheHit(cached, key, options.ignoreCache, answer) then Answer(Ok(cached[key].table), cached)
    else
      match Gathered(connections, engines, server, query, options, completion)
      case Err(e) => Answer(Err(e), cached)
      case Ok(c) =>
        match Concat(Values(c.data))
        case Err(e) => Answer(Err(e), cached)
        case Ok(df) => Answer(Ok(df), if options.noCache then cached else cached[key := CacheEntry(df, c.failed)])
  }

  /** The run itself.  `executed` lists the connections `execute_query`
      was called for, in order. */
  method ExecuteQueryMultiDb(manager: Manager, cache: ResultCache, server: Server, query: string, options: Options, answer: string, completion: seq<nat>)
    returns (r: Result<Table>, executed: seq<string>)
    requires options.parallel ==> IsPermutation(completion, |manager.connections|)
    modifies cache
    ensures var a := MultiDb(manager.connections, manager.engines, server, old(cache.entries), query, options, answer, completion);
      r == a.result && cache.entries == a.cache
    ensures CacheHit(old(cache.entries), CacheKey(query, Keys(manager.connections)), options.ignoreCache, answer) ==> executed == []
    ensures (r.Ok? && !CacheHit(old(cache.entries), CacheKey(query, Keys(manager.connections)), options.ignoreCache, answer)) ==>
      executed == Keys(manager.connections)
  {
    var connections := manager.connections;
    var key := CacheKey(query, Keys(connections));
    if !options.ignoreCache && key in cache.entries && Accepts(answer) {
      return Ok(cache.entries[key].table), [];
    }
    var gathered;
    if options.parallel {
      gathered, executed := RunInPool(connections, manager.engines, server, query, options, completion);
    } else {
      gathered, executed := RunSequentially(connections, manager.engines, server, query, options);
    }
    if gathered.Err? {
      return Err(gathered.error), executed;
    }
    var df := Concat(Values(gathered.value.data));
    if df.Err? {
      return Err(df.error), executed;
    }
    if !options.noCache {
      cache.Store(key, df.value, gathered.value.failed);
    }
    return Ok(df.value), executed;
  }

  /** The thread-pool branch: submit every query, then record the outcomes
      as they complete. */
  method RunInPool(connections: Dict<string, Value>, engines: Dict<string, Engine>, server: Server, query: string, options: Options, completion: seq<nat>)
    returns (r: Result<Collected>, executed: seq<string>)
    requires IsPermutation(completion, |connections|)
    ensures r == Pooled(connections, engines, server, query, options, completion)
    ensures r.Ok? ==> executed == Keys(connections)
  {
    var futures, names;
    futures, names, executed := Submit(connections, engines, server, query, options.commit);
    if names.Err? {
      return Err(names.error), executed;
    }
    r := CollectInOrder(NothingCollected, futures, Values(names.value), completion, options.connectionColumnName, options.addConnectionColumn);
  }

  /** The sequential branch: run and record one connection after the
      other, under its registry key; a rejected outcome stops the loop. */
  method RunSequentially(connections: Dict<string, Value>, engines: Dict<string, Engine>, server: Server, query: string, options: Options)
    returns (r: Result<Collected>, executed: seq<string>)
    ensures r == Sequential(connections, engines, server, query, options)
    ensures r.Ok? ==> executed == Keys(connections)
  {
    ghost var outcomes := Outcomes(connections, engines, server, query, options.commit);
    ghost var names := RegistryNames(connections);
    ghost var order := Range(|connections|);
    var colName := options.connectionColumnName;
    var addCol := options.addConnectionColumn;
    ghost var target := Completed(NothingCollected, outcomes, names, order, colName, addCol);
    assert order[0..] == order;
    var acc := NothingCollected;
    executed := [];
    var i := 0;
    while i < |connections|
      invariant 0 <= i <= |connections|
      invariant executed == Keys(connections)[..i]
      invariant Completed(acc, outcomes, names, order[i..], colName, addCol) == target
    {
      var connection := connections[i].0;
      var run := ExecuteQuery(engines, server, query, connection, options.commit);
      KeysPrefix(connections, i);
      executed := executed + [connection];
      RegistryStep(acc, connections, engines, server, query, options.commit, i, colName, addCol);
      var next := Process(acc, run.outcome, Str(connection), colName, addCol);
      if next.Err? {
        return Err(next.error), executed;
      }
      acc := next.value;
      i := i + 1;
    }
    return Ok(acc), executed;
  }

  // ---------------------------------------------------------------------
  // Properties

  /** An accepted cache entry is returned as it is: no query runs (the
      answer is the same whatever the databases would do and whatever the
      completion order) and nothing is written. */
  lemma CacheHitShortCircuits(connections: Dict<string, Value>, engines: Dict<string, Engine>, server: Server, otherServer: Server,
                              cached: map<string, CacheEntry>, query: string, options: Options, answer: string,
                              completion: seq<nat>, otherCompletion: seq<nat>)
    requires options.parallel ==> IsPermutation(completion, |connections|) && IsPermutation(otherCompletion, |connections|)
    requires CacheHit(cached, CacheKey(query, Keys(connections)), options.ignoreCache, answer)
    ensures var a := MultiDb(connections, engines, server, cached, query, options, answer, completion);
      a.result == Ok(cached[CacheKey(query, Keys(connections))].table) && a.cache == cached &&
      a == MultiDb(connections, engines, otherServer, cached, query, options, answer, otherCompletion)
  {
  }

  /** Without an accepted entry, a fresh result is written under the key
      exactly when `noCache` is false (even when `ignoreCache` is set); a
      run that raises writes nothing. */
  lemma FreshResultCached(connections: Dict<string, Value>, engines: Dict<string, Engine>, server: Server,
                          cached: map<string, CacheEntry>, query: string, options: Options, answer: string, completion: seq<nat>)
    requires options.parallel ==> IsPermutation(completion, |connections|)
    requires !CacheHit(cached, CacheKey(query, Keys(connections)), options.ignoreCache, answer)
    ensures var a := MultiDb(connections, engines, server, cached, query, options, answer, completion);
      var g := Gathered(connections, engines, server, query, options, completion);
      (a.result.Ok? ==> g.Ok?) &&
      (a.result.Ok? && !options.noCache ==> a.cache == cached[CacheKey(query, Keys(connections)) := CacheEntry(a.result.value, g.value.failed)]) &&
      (a.result.Err? || options.noCache ==> a.cache == cached)
  {
  }

  /** The key lists the connections in registry order: the same
      connections in another order miss the entry. */
  lemma CacheKeyFollowsRegistryOrder()
    ensures CacheKey("SELECT 1", ["a", "b"]) != CacheKey("SELECT 1", ["b", "a"])
  {
    assert CacheKey("SELECT 1", ["a", "b"])[8] == 'a';
  }

  /** Nothing separates the query from the names, and a comma inside a
      name looks like two names: different runs share a key. */
  lemma CacheKeyCollides()
    ensures CacheKey("SELECT 1", ["ab"]) == CacheKey("SELECT 1a", ["b"])
    ensures CacheKey("SELECT 1", ["a,b"]) == CacheKey("SELECT 1", ["a", "b"])
  {
  }

  /** After the sequential loop every registry key is in exactly one of
      `data` (with its table) and `failed` (with its error), and nothing
      else is; the loop raises only for rows pandas rejects. */
  lemma SequentialCoverage(connections: Dict<string, Value>, engines: Dict<string, Engine>, server: Server, query: string, options: Options, completion: seq<nat>)
    requires UniqueKeys(connections) && !options.parallel
    ensures var g := Gathered(connections, engines, server, query, options, completion);
      var outcomes := Outcomes(connections, engines, server, query, options.commit);
      g.Ok? <==> forall i :: 0 <= i < |connections| ==> Tabular(outcomes[i])
    ensures var g := Gathered(connections, engines, server, query, options, completion);
      var outcomes := Outcomes(connections, engines, server, query, options.commit);
      g.Ok? ==>
        (forall i :: 0 <= i < |connections| ==>
          Get(g.value.data, Str(connections[i].0)) ==
            (if outcomes[i].Success? then Some(Frame(outcomes[i], Str(connections[i].0), options.connectionColumnName, options.addConnectionColumn)) else None) &&
          Get(g.value.failed, Str(connections[i].0)) == (if outcomes[i].Failure? then Some(outcomes[i].error) else None)) &&
        (forall k :: k in Keys(g.value.data) || k in Keys(g.value.failed) ==> k in RegistryNames(connections))
  {
    var n := |connections|;
    var outcomes := Outcomes(connections, engines, server, query, options.commit);
    var names := RegistryNames(connections);
    var colName := options.connectionColumnName;
    var addCol := options.addConnectionColumn;
    RangeIsPermutation(n);
    PermutationTabular(NothingCollected, outcomes, names, Range(n), colName, addCol);
    var g := Gathered(connections, engines, server, query, options, completion);
    if g.Ok? {
      CompletedGet(NothingCollected, outcomes, names, Range(n), colName, addCol);
    }
  }

  /** With distinct `config["name"]`s the parallel loop ends with the same
      `data` and `failed` whatever order the connections complete in. */
  lemma ParallelOrderIrrelevant(connections: Dict<string, Value>, engines: Dict<string, Engine>, server: Server, query: string, options: Options,
                                p: seq<nat>, q: seq<nat>)
    requires options.parallel && IsPermutation(p, |connections|) && IsPermutation(q, |connections|)
    requires Names(connections).Ok? ==> Distinct(Values(Names(connections).value))
    ensures Gathered(connections, engines, server, query, options, p).Ok? <==> Gathered(connections, engines, server, query, options, q).Ok?
    ensures Gathered(connections, engines, server, query, options, p).Ok? ==>
      ToMap(Gathered(connections, engines, server, query, options, p).value.data) == ToMap(Gathered(connections, engines, server, query, options, q).value.data) &&
      ToMap(Gathered(connections, engines, server, query, options, p).value.failed) == ToMap(Gathered(connections, engines, server, query, options, q).value.failed)
  {
    if Names(connections).Ok? {
      var outcomes := Outcomes(connections, engines, server, query, options.commit);
      var names := Values(Names(connections).value);
      CompletionOrderIrrelevant(NothingCollected, outcomes, names, p, q, options.connectionColumnName, options.addConnectionColumn);
    }
  }

  /** The result is the concatenation of the stored tables, so it has as
      many rows as they have together; when nothing succeeded, `pd.concat`
      raises instead of returning an empty table. */
  lemma ResultConcatenatesSuccesses(connections: Dict<string, Value>, engines: Dict<string, Engine>, server: Server,
                                    cached: map<string, CacheEntry>, query: string, options: Options, answer: string, completion: seq<nat>)
    requires options.parallel ==> IsPermutation(completion, |connections|)
    requires !CacheHit(cached, CacheKey(query, Keys(connections)), options.ignoreCache, answer)
    requires Gathered(connections, engines, server, query, options, completion).Ok?
    ensures var a := MultiDb(connections, engines, server, cached, query, options, answer, completion);
      var frames := Values(Gathered(connections, engines, server, query, options, completion).value.data);
      (a.result.Err? <==> frames == []) &&
      (a.result.Err? ==> a.result.error == ValueError("No objects to concatenate")) &&
      (a.result.Ok? ==> |a.result.value.rows| == TotalRows(frames) && Rectangular(a.result.value))
  {
    var outcomes := Outcomes(connections, engines, server, query, options.commit);
    var colName := options.connectionColumnName;
    var addCol := options.addConnectionColumn;
    if options.parallel {
      CompletedRectangular(NothingCollected, outcomes, Values(Names(connections).value), completion, colName, addCol);
    } else {
      RangeIsPermutation(|connections|);
      CompletedRectangular(NothingCollected, outcomes, RegistryNames(connections), Range(|connections|), colName, addCol);
    }
    var frames := Values(Gathered(connections, engines, server, query, options, completion).value.data);
    if frames != [] {
      ConcatRows(frames);
    }
  }

  /** When every connection fails the run raises and writes nothing. */
  lemma AllFailedRaises(connections: Dict<string, Value>, engines: Dict<string, Engine>, server: Server,
                        cached: map<string, CacheEntry>, query: string, options: Options, answer: string, completion: seq<nat>)
    requires options.parallel ==> IsPermutation(completion, |connections|) && Names(connections).Ok?
    requires !CacheHit(cached, CacheKey(query, Keys(connections)), options.ignoreCache, answer)
    requires forall i :: 0 <= i < |connections| ==> Outcomes(connections, engines, server, query, options.commit)[i].Failure?
    ensures MultiDb(connections, engines, server, cached, query, options, answer, completion) == Answer(Err(ValueError("No objects to concatenate")), cached)
  {
    var outcomes := Outcomes(connections, engines, server, query, options.commit);
    var colName := options.connectionColumnName;
    var addCol := options.addConnectionColumn;
    if options.parallel {
      CompletedFailuresOnly(NothingCollected, outcomes, Values(Names(connections).value), completion, colName, addCol);
    } else {
      RangeIsPermutation(|connections|);
      CompletedFailuresOnly(NothingCollected, outcomes, RegistryNames(connections), Range(|connections|), colName, addCol);
    }
  }
}
