/** What the two query runners (db_tools/database/runner.py and
    runner.py) share: running one query on one connection, recording its
    outcome in the `data` or `failed_extractions` dictionary, and folding
    the outcomes in the order the thread pool completes them. */
module Execution {
  import opened Python
  import opened Dicts
  import opened Types
  import opened Sql
  import opened Tables

  /** What `execute_query` returns: the fetched rows and the cursor's
      column names, or the exception it caught. */
  datatype Outcome = Success(records: seq<seq<Value>>, columns: seq<string>) | Failure(error: Error)

  /** An outcome together with what was asked of the connection, in order. */
  datatype Run = Run(outcome: Outcome, actions: seq<Action>)

  function Finish(commit: bool): Action
  {
    if commit then Commit else Rollback
  }

  /** `execute_query(query, connection, commit)`: look the engine up,
      connect, execute, fetch every row, read the column names, then
      commit or roll back.  Leaving the `with` block closes a connection
      that was opened, and every exception becomes a `Failure`. */
  function ExecuteQuery(engines: Dict<string, Engine>, server: Server, query: string, connection: string, commit: bool): Run
  {
    match Get(engines, connection)
    case None => Run(Failure(KeyError(Str(connection))), [])
    case Some(engine) =>
      var b := server(engine, query);
      if b.connectError.Some? then Run(Failure(b.connectError.value), [Connect])
      else if b.executeError.Some? then Run(Failure(b.executeError.value), [Connect, Execute(query), Close])
      else if b.fetchError.Some? then Run(Failure(b.fetchError.value), [Connect, Execute(query), Fetch, Close])
      else if b.finishError.Some? then Run(Failure(b.finishError.value), [Connect, Execute(query), Fetch, Finish(commit), Close])
      else Run(Success(b.rows, b.columns), [Connect, Execute(query), Fetch, Finish(commit), Close])
  }

  /** The errors of connecting, executing, fetching and finishing, in the
      order the steps are taken. */
  function Steps(b: Backend): seq<Option<Error>>
  {
    [b.connectError, b.executeError, b.fetchError, b.finishError]
  }

  /** The backend a connection with an engine talks to. */
  function BackendOf(engines: Dict<string, Engine>, server: Server, query: string, connection: string): Backend
    requires connection in Keys(engines)
  {
    server(Get(engines, connection).value, query)
  }

  /** A connection without an engine fails with `KeyError` before anything
      is asked of a database. */
  lemma ExecutionWithoutEngine(engines: Dict<string, Engine>, server: Server, query: string, connection: string, commit: bool)
    requires connection !in Keys(engines)
    ensures ExecuteQuery(engines, server, query, connection, commit) == Run(Failure(KeyError(Str(connection))), [])
  {
  }

  /** With an engine, the run succeeds exactly when no step raises, and
      then it carries what the cursor returned; otherwise it carries the
      error of the first step that raised. */
  lemma ExecutionOutcome(engines: Dict<string, Engine>, server: Server, query: string, connection: string, commit: bool)
    requires connection in Keys(engines)
    ensures var b := BackendOf(engines, server, query, connection);
      var o := ExecuteQuery(engines, server, query, connection, commit).outcome;
      (o.Success? <==> forall k :: 0 <= k < 4 ==> Steps(b)[k].None?) &&
      (o.Success? ==> o.records == b.rows && o.columns == b.columns) &&
      (o.Failure? ==> exists k :: 0 <= k < 4 && Steps(b)[k] == Some(o.error) && forall j :: 0 <= j < k ==> Steps(b)[j].None?)
  {
    var b := BackendOf(engines, server, query, connection);
    var o := ExecuteQuery(engines, server, query, connection, commit).outcome;
    if o.Failure? {
      var k := if b.connectError.Some? then 0 else if b.executeError.Some? then 1 else if b.fetchError.Some? then 2 else 3;
      assert Steps(b)[k] == Some(o.error) && forall j :: 0 <= j < k ==> Steps(b)[j].None?;
    }
  }

  /** The rows were fetched: there is an engine, and connecting, executing
      and fetching raised nothing. */
  predicate Fetched(engines: Dict<string, Engine>, server: Server, query: string, connection: string)
  {
    connection in Keys(engines) &&
    var b := BackendOf(engines, server, query, connection);
    b.connectError.None? && b.executeError.None? && b.fetchError.None?
  }

  /** The transaction is committed exactly when `commit` is set and rolled
      back exactly when it is not, in both cases only once every row was
      fetched. */
  lemma ExecutionFinishes(engines: Dict<string, Engine>, server: Server, query: string, connection: string, commit: bool)
    ensures var run := ExecuteQuery(engines, server, query, connection, commit);
      (Commit in run.actions <==> commit && Fetched(engines, server, query, connection)) &&
      (Rollback in run.actions <==> !commit && Fetched(engines, server, query, connection)) &&
      (forall i :: 0 <= i < |run.actions| && (run.actions[i] == Commit || run.actions[i] == Rollback) ==> Fetch in run.actions[..i])
  {
    var run := ExecuteQuery(engines, server, query, connection, commit);
    if Fetched(engines, server, query, connection) {
      assert run.actions[..3] == [Connect, Execute(query), Fetch];
      assert run.actions[..4] == [Connect, Execute(query), Fetch, Finish(commit)];
    }
  }

  /** A connection that was opened is closed, once, as the last action. */
  lemma ExecutionCloses(engines: Dict<string, Engine>, server: Server, query: string, connection: string, commit: bool)
    requires connection in Keys(engines) && BackendOf(engines, server, query, connection).connectError.None?
    ensures var run := ExecuteQuery(engines, server, query, connection, commit);
      run.actions[|run.actions| - 1] == Close && Close !in run.actions[..|run.actions| - 1]
  {
    var b := BackendOf(engines, server, query, connection);
    var a := ExecuteQuery(engines, server, query, connection, commit).actions;
    var steps := if b.executeError.Some? then [Connect, Execute(query)]
      else if b.fetchError.Some? then [Connect, Execute(query), Fetch]
      else [Connect, Execute(query), Fetch, Finish(commit)];
    assert a == steps + [Close];
    assert a[..|a| - 1] == steps;
  }

  /** A statement that returns no rows (an UPDATE, say) fails at
      `fetchall()`, so it is never committed, whatever `commit` says. */
  lemma RowlessStatementNeverCommits(engines: Dict<string, Engine>, server: Server, query: string, connection: string, commit: bool)
    requires connection in Keys(engines) && BackendOf(engines, server, query, connection).fetchError.Some?
    ensures ExecuteQuery(engines, server, query, connection, commit).outcome.Failure?
    ensures Commit !in ExecuteQuery(engines, server, query, connection, commit).actions
  {
    ExecutionFinishes(engines, server, query, connection, commit);
  }

  /** The outcome of every connection of the registry, in registry order. */
  function Outcomes(connections: Dict<string, Value>, engines: Dict<string, Engine>, server: Server, query: string, commit: bool): (r: seq<Outcome>)
    ensures |r| == |connections|
    ensures forall i :: 0 <= i < |connections| ==> r[i] == ExecuteQuery(engines, server, query, connections[i].0, commit).outcome
  {
    seq(|connections|, i requires 0 <= i < |connections| => ExecuteQuery(engines, server, query, connections[i].0, commit).outcome)
  }

  // ---------------------------------------------------------------------
  // Recording outcomes

  /** The `data` and `failed_extractions` dictionaries, keyed by
      connection. */
  datatype Collected = Collected(data: Dict<Value, Table>, failed: Dict<Value, Error>)

  const NothingCollected := Collected([], [])

  /** An outcome pandas can turn into a table: a failure, or rows of one
      cell per column. */
  predicate Tabular(o: Outcome)
  {
    o.Success? ==> Aligned(o.records, o.columns)
  }

  /** `pd.DataFrame(data, columns=columns)`, then, when asked, the origin
      column `t[colName] = connection`. */
  function Frame(o: Outcome, connection: Value, colName: string, addCol: bool): (t: Table)
    requires o.Success? && Tabular(o)
    ensures Rectangular(t) && |t.rows| == |o.records|
  {
    var t := FromRecords(o.records, o.columns);
    if addCol then SetColumn(t, colName, connection) else t
  }

  /** The origin column: with `addCol` every row holds `connection` in
      column `colName`, which is appended or, when the query returned a
      column of that name, overwritten; the other cells are the fetched
      ones.  Without it the columns are exactly the cursor's. */
  lemma OriginColumn(o: Outcome, connection: Value, colName: string, addCol: bool)
    requires o.Success? && Aligned(o.records, o.columns)
    ensures var t := Frame(o, connection, colName, addCol);
      addCol ==>
        ColumnSet(t.columns) == ColumnSet(o.columns) + {colName} &&
        (colName in o.columns ==> t.columns == o.columns) &&
        (forall row :: row in t.rows ==> colName in row && row[colName] == connection)
    ensures var t := Frame(o, connection, colName, addCol);
      (addCol && Distinct(o.columns)) ==>
        forall i, j :: 0 <= i < |o.records| && 0 <= j < |o.columns| && o.columns[j] != colName ==>
          t.rows[i][o.columns[j]] == o.records[i][j]
    ensures !addCol ==> Frame(o, connection, colName, addCol).columns == o.columns
  {
    var t := Frame(o, connection, colName, addCol);
    if addCol {
      forall row | row in t.rows ensures colName in row && row[colName] == connection {
        var i :| 0 <= i < |t.rows| && t.rows[i] == row;
      }
    }
  }

  /** The error pandas raises when the rows do not have one cell per
      column. */
  const ShapeMismatch := ValueError("columns passed do not match the data")

  /** `_process_results`: a success is stored as a table under
      `connection` in `data`, a failure's error under `connection` in
      `failed`. */
  function Process(acc: Collected, o: Outcome, connection: Value, colName: string, addCol: bool): (r: Result<Collected>)
    ensures r.Ok? <==> Tabular(o)
    ensures r.Err? ==> r.error == ShapeMismatch
  {
    match o
    case Failure(e) => Ok(Collected(acc.data, Put(acc.failed, connection, e)))
    case Success(records, columns) =>
      if Aligned(records, columns) then Ok(Collected(Put(acc.data, connection, Frame(o, connection, colName, addCol)), acc.failed))
      else Err(ShapeMismatch)
  }

  /** A success goes to `data` and leaves `failed` alone, a failure goes to
      `failed` and leaves `data` alone; no other connection's entry
      changes. */
  lemma ProcessStores(acc: Collected, o: Outcome, connection: Value, colName: string, addCol: bool, other: Value)
    requires Tabular(o)
    ensures var c := Process(acc, o, connection, colName, addCol).value;
      (o.Success? ==> Get(c.data, connection) == Some(Frame(o, connection, colName, addCol)) && c.failed == acc.failed) &&
      (o.Failure? ==> Get(c.failed, connection) == Some(o.error) && c.data == acc.data) &&
      (other != connection ==> Get(c.data, other) == Get(acc.data, other) && Get(c.failed, other) == Get(acc.failed, other))
  {
    if o.Success? {
      var f := Frame(o, connection, colName, addCol);
      GetPut(acc.data, connection, f, connection);
      GetPut(acc.data, connection, f, other);
    } else {
      GetPut(acc.failed, connection, o.error, connection);
      GetPut(acc.failed, connection, o.error, other);
    }
  }

  /** Every stored table is rectangular. */
  predicate FramesRectangular(d: Dict<Value, Table>)
  {
    forall i :: 0 <= i < |d| ==> Rectangular(d[i].1)
  }

  // ---------------------------------------------------------------------
  // Completion order

  /** `order` lists every index below `n` exactly once. */
  predicate IsPermutation(order: seq<nat>, n: nat)
  {
    |order| == n && Distinct(order) &&
    (forall j :: 0 <= j < |order| ==> order[j] < n) &&
    (forall i :: 0 <= i < n ==> i in order)
  }

  function Range(n: nat): (r: seq<nat>)
    ensures |r| == n && forall i :: 0 <= i < n ==> r[i] == i
  {
    seq(n, i requires 0 <= i < n => i as nat)
  }

  lemma RangeIsPermutation(n: nat)
    ensures IsPermutation(Range(n), n)
  {
    forall i | 0 <= i < n ensures i in Range(n) {
      assert Range(n)[i] == i;
    }
  }

  /** The loop over `as_completed`: the outcomes, keyed by `names`, are
      recorded in the order `order` gives, starting from `acc`; the first
      outcome pandas rejects raises. */
  function Completed(acc: Collected, outcomes: seq<Outcome>, names: seq<Value>, order: seq<nat>, colName: string, addCol: bool): Result<Collected>
    requires |outcomes| == |names|
    requires forall j :: 0 <= j < |order| ==> order[j] < |names|
    decreases |order|
  {
    if order == [] then Ok(acc)
    else
      var next :- Process(acc, outcomes[order[0]], names[order[0]], colName, addCol);
      Completed(next, outcomes, names, order[1..], colName, addCol)
  }

  /** One step of the fold from position `i` of `order` on. */
  lemma CompletedStep(acc: Collected, outcomes: seq<Outcome>, names: seq<Value>, order: seq<nat>, i: nat, colName: string, addCol: bool)
    requires |outcomes| == |names| && i < |order|
    requires forall j :: 0 <= j < |order| ==> order[j] < |names|
    ensures Completed(acc, outcomes, names, order[i..], colName, addCol) ==
      match Process(acc, outcomes[order[i]], names[order[i]], colName, addCol)
      case Err(e) => Err(e)
      case Ok(next) => Completed(next, outcomes, names, order[i + 1..], colName, addCol)
  {
    assert order[i..][0] == order[i] && order[i..][1..] == order[i + 1..];
  }

  /** One step of the fold over the registry in registry order: the
      outcome of the `i`-th connection, recorded under its key. */
  lemma RegistryStep(acc: Collected, connections: Dict<string, Value>, engines: Dict<string, Engine>, server: Server,
                     query: string, commit: bool, i: nat, colName: string, addCol: bool)
    requires i < |connections|
    ensures var outcomes := Outcomes(connections, engines, server, query, commit);
      var names := RegistryNames(connections);
      var order := Range(|connections|);
      var step := Process(acc, ExecuteQuery(engines, server, query, connections[i].0, commit).outcome, Str(connections[i].0), colName, addCol);
      (step.Err? ==> Completed(acc, outcomes, names, order[i..], colName, addCol) == Err(step.error)) &&
      (step.Ok? ==> Completed(acc, outcomes, names, order[i..], colName, addCol) == Completed(step.value, outcomes, names, order[i + 1..], colName, addCol))
  {
    CompletedStep(acc, Outcomes(connections, engines, server, query, commit), RegistryNames(connections), Range(|connections|), i, colName, addCol);
  }

  /** The fold raises exactly when one of the outcomes it records is not
      tabular. */
  lemma {:induction false} CompletedOk(acc: Collected, outcomes: seq<Outcome>, names: seq<Value>, order: seq<nat>, colName: string, addCol: bool)
    requires |outcomes| == |names|
    requires forall j :: 0 <= j < |order| ==> order[j] < |names|
    ensures Completed(acc, outcomes, names, order, colName, addCol).Ok? <==> forall j :: 0 <= j < |order| ==> Tabular(outcomes[order[j]])
    ensures Completed(acc, outcomes, names, order, colName, addCol).Err? ==> Completed(acc, outcomes, names, order, colName, addCol).error == ShapeMismatch
    decreases |order|
  {
    if order != [] {
      var next := Process(acc, outcomes[order[0]], names[order[0]], colName, addCol);
      if next.Ok? {
        CompletedOk(next.value, outcomes, names, order[1..], colName, addCol);
        assert forall j :: 1 <= j < |order| ==> order[j] == order[1..][j - 1];
      }
    }
  }

  /** With distinct names, what the fold leaves under each name: the
      outcome recorded for that name if it was recorded, and what `acc`
      held otherwise. */
  lemma {:induction false} CompletedGet(acc: Collected, outcomes: seq<Outcome>, names: seq<Value>, order: seq<nat>, colName: string, addCol: bool)
    requires |outcomes| == |names| && Distinct(names) && Distinct(order)
    requires forall j :: 0 <= j < |order| ==> order[j] < |names|
    requires forall i :: 0 <= i < |outcomes| ==> Tabular(outcomes[i])
    ensures Completed(acc, outcomes, names, order, colName, addCol).Ok?
    ensures var c := Completed(acc, outcomes, names, order, colName, addCol).value;
      forall i :: 0 <= i < |names| ==>
        Get(c.data, names[i]) == (if i in order && outcomes[i].Success? then Some(Frame(outcomes[i], names[i], colName, addCol)) else Get(acc.data, names[i])) &&
        Get(c.failed, names[i]) == (if i in order && outcomes[i].Failure? then Some(outcomes[i].error) else Get(acc.failed, names[i]))
    ensures var c := Completed(acc, outcomes, names, order, colName, addCol).value;
      forall k :: k !in names ==> Get(c.data, k) == Get(acc.data, k) && Get(c.failed, k) == Get(acc.failed, k)
    decreases |order|
  {
    if order != [] {
      var o := order[0];
      var rest := order[1..];
      var next := Process(acc, outcomes[o], names[o], colName, addCol).value;
      assert forall j :: 0 <= j < |rest| ==> rest[j] == order[j + 1];
      CompletedGet(next, outcomes, names, rest, colName, addCol);
      var c := Completed(next, outcomes, names, rest, colName, addCol).value;
      forall i | 0 <= i < |names|
        ensures Get(c.data, names[i]) == (if i in order && outcomes[i].Success? then Some(Frame(outcomes[i], names[i], colName, addCol)) else Get(acc.data, names[i]))
        ensures Get(c.failed, names[i]) == (if i in order && outcomes[i].Failure? then Some(outcomes[i].error) else Get(acc.failed, names[i]))
      {
        GetAfterStep(acc, next, c, outcomes, names, order, i, colName, addCol);
      }
      forall k | k !in names
        ensures Get(c.data, k) == Get(acc.data, k) && Get(c.failed, k) == Get(acc.failed, k)
      {
        ProcessStores(acc, outcomes[o], names[o], colName, addCol, k);
      }
    }
  }

  /** The lookup of one name after recording `o` first and then the rest
      of the order. */
  lemma GetAfterStep(acc: Collected, next: Collected, c: Collected, outcomes: seq<Outcome>, names: seq<Value>,
                     order: seq<nat>, i: nat, colName: string, addCol: bool)
    requires |outcomes| == |names| && Distinct(names) && order != [] && order[0] < |names| && i < |names|
    requires order[0] !in order[1..]
    requires Tabular(outcomes[order[0]]) && Tabular(outcomes[i])
    requires Process(acc, outcomes[order[0]], names[order[0]], colName, addCol) == Ok(next)
    requires Get(c.data, names[i]) == (if i in order[1..] && outcomes[i].Success? then Some(Frame(outcomes[i], names[i], colName, addCol)) else Get(next.data, names[i]))
    requires Get(c.failed, names[i]) == (if i in order[1..] && outcomes[i].Failure? then Some(outcomes[i].error) else Get(next.failed, names[i]))
    ensures Get(c.data, names[i]) == (if i in order && outcomes[i].Success? then Some(Frame(outcomes[i], names[i], colName, addCol)) else Get(acc.data, names[i]))
    ensures Get(c.failed, names[i]) == (if i in order && outcomes[i].Failure? then Some(outcomes[i].error) else Get(acc.failed, names[i]))
  {
    var o := order[0];
    InFront(order, i);
    ProcessStores(acc, outcomes[o], names[o], colName, addCol, names[i]);
    if i != o {
      assert names[i] != names[o];
    }
  }

  /** Membership in a non-empty sequence: the first element or the rest. */
  lemma InFront<T>(s: seq<T>, x: T)
    requires s != []
    ensures x in s <==> x == s[0] || x in s[1..]
  {
    assert s == [s[0]] + s[1..];
  }

  /** Dictionaries that answer every lookup alike denote the same mapping. */
  lemma SameLookups<K, V>(a: Dict<K, V>, b: Dict<K, V>)
    requires forall k :: Get(a, k) == Get(b, k)
    ensures ToMap(a) == ToMap(b)
  {
  }

  /** When the connections complete in some order of all of them, each
      name holds its own outcome, or what `acc` held when it has none of
      that kind. */
  lemma CompletedPermutation(acc: Collected, outcomes: seq<Outcome>, names: seq<Value>, p: seq<nat>, colName: string, addCol: bool)
    requires |outcomes| == |names| && Distinct(names) && IsPermutation(p, |names|)
    requires forall i :: 0 <= i < |outcomes| ==> Tabular(outcomes[i])
    ensures Completed(acc, outcomes, names, p, colName, addCol).Ok?
    ensures var c := Completed(acc, outcomes, names, p, colName, addCol).value;
      forall k :: Get(c.data, k) == Recorded(acc.data, outcomes, names, k, colName, addCol) &&
        Get(c.failed, k) == Failed(acc.failed, outcomes, names, k)
  {
    CompletedGet(acc, outcomes, names, p, colName, addCol);
    var c := Completed(acc, outcomes, names, p, colName, addCol).value;
    forall k ensures Get(c.data, k) == Recorded(acc.data, outcomes, names, k, colName, addCol) && Get(c.failed, k) == Failed(acc.failed, outcomes, names, k) {
      if k in names {
        var i :| 0 <= i < |names| && names[i] == k;
        assert i in p;
        IndexOfName(names, i);
      }
    }
  }

  /** The position of a name among distinct names. */
  function IndexOf(names: seq<Value>, k: Value): (i: nat)
    requires k in names
    ensures i < |names| && names[i] == k
  {
    if names[0] == k then 0 else 1 + IndexOf(names[1..], k)
  }

  lemma IndexOfName(names: seq<Value>, i: nat)
    requires Distinct(names) && i < |names|
    ensures IndexOf(names, names[i]) == i
  {
  }

  /** The table a name holds once every connection completed. */
  function Recorded(before: Dict<Value, Table>, outcomes: seq<Outcome>, names: seq<Value>, k: Value, colName: string, addCol: bool): Option<Table>
    requires |outcomes| == |names|
    requires forall i :: 0 <= i < |outcomes| ==> Tabular(outcomes[i])
  {
    if k in names && outcomes[IndexOf(names, k)].Success? then Some(Frame(outcomes[IndexOf(names, k)], k, colName, addCol))
    else Get(before, k)
  }

  /** The error a name holds once every connection completed. */
  function Failed(before: Dict<Value, Error>, outcomes: seq<Outcome>, names: seq<Value>, k: Value): Option<Error>
    requires |outcomes| == |names|
  {
    if k in names && outcomes[IndexOf(names, k)].Failure? then Some(outcomes[IndexOf(names, k)].error)
    else Get(before, k)
  }

  /** If the fold succeeds in an order of all connections, every outcome
      is tabular. */
  lemma PermutationTabular(acc: Collected, outcomes: seq<Outcome>, names: seq<Value>, p: seq<nat>, colName: string, addCol: bool)
    requires |outcomes| == |names| && IsPermutation(p, |names|)
    ensures Completed(acc, outcomes, names, p, colName, addCol).Ok? <==> forall i :: 0 <= i < |outcomes| ==> Tabular(outcomes[i])
  {
    CompletedOk(acc, outcomes, names, p, colName, addCol);
    var inOrder := forall j :: 0 <= j < |p| ==> Tabular(outcomes[p[j]]);
    var all := forall i :: 0 <= i < |outcomes| ==> Tabular(outcomes[i]);
    if inOrder {
      forall i | 0 <= i < |outcomes| ensures Tabular(outcomes[i]) {
        assert i in p;
        var j :| 0 <= j < |p| && p[j] == i;
      }
    }
    assert all ==> inOrder;
  }

  /** With distinct names, the order in which the connections complete
      changes nothing: both orders raise or neither does, and then `data`
      and `failed` map every name alike. */
  lemma CompletionOrderIrrelevant(acc: Collected, outcomes: seq<Outcome>, names: seq<Value>, p: seq<nat>, q: seq<nat>, colName: string, addCol: bool)
    requires |outcomes| == |names| && Distinct(names)
    requires IsPermutation(p, |names|) && IsPermutation(q, |names|)
    ensures Completed(acc, outcomes, names, p, colName, addCol).Ok? <==> Completed(acc, outcomes, names, q, colName, addCol).Ok?
    ensures Completed(acc, outcomes, names, p, colName, addCol).Ok? ==>
      ToMap(Completed(acc, outcomes, names, p, colName, addCol).value.data) == ToMap(Completed(acc, outcomes, names, q, colName, addCol).value.data) &&
      ToMap(Completed(acc, outcomes, names, p, colName, addCol).value.failed) == ToMap(Completed(acc, outcomes, names, q, colName, addCol).value.failed)
  {
    PermutationTabular(acc, outcomes, names, p, colName, addCol);
    PermutationTabular(acc, outcomes, names, q, colName, addCol);
    if Completed(acc, outcomes, names, p, colName, addCol).Ok? {
      CompletedPermutation(acc, outcomes, names, p, colName, addCol);
      CompletedPermutation(acc, outcomes, names, q, colName, addCol);
      var cp := Completed(acc, outcomes, names, p, colName, addCol).value;
      var cq := Completed(acc, outcomes, names, q, colName, addCol).value;
      SameLookups(cp.data, cq.data);
      SameLookups(cp.failed, cq.failed);
    }
  }

  /** The fold stores only rectangular tables. */
  lemma {:induction false} CompletedRectangular(acc: Collected, outcomes: seq<Outcome>, names: seq<Value>, order: seq<nat>, colName: string, addCol: bool)
    requires |outcomes| == |names|
    requires forall j :: 0 <= j < |order| ==> order[j] < |names|
    requires FramesRectangular(acc.data)
    requires Completed(acc, outcomes, names, order, colName, addCol).Ok?
    ensures FramesRectangular(Completed(acc, outcomes, names, order, colName, addCol).value.data)
    decreases |order|
  {
    if order != [] {
      var o := outcomes[order[0]];
      var next := Process(acc, o, names[order[0]], colName, addCol).value;
      if o.Success? {
        var f := Frame(o, names[order[0]], colName, addCol);
        forall i | 0 <= i < |next.data| ensures Rectangular(next.data[i].1) {
          PutValueAt(acc.data, names[order[0]], f, i);
        }
      }
      CompletedRectangular(next, outcomes, names, order[1..], colName, addCol);
    }
  }

  /** Recording only failures leaves `data` as it was. */
  lemma {:induction false} CompletedFailuresOnly(acc: Collected, outcomes: seq<Outcome>, names: seq<Value>, order: seq<nat>, colName: string, addCol: bool)
    requires |outcomes| == |names|
    requires forall j :: 0 <= j < |order| ==> order[j] < |names|
    requires forall j :: 0 <= j < |order| ==> outcomes[order[j]].Failure?
    ensures Completed(acc, outcomes, names, order, colName, addCol).Ok?
    ensures Completed(acc, outcomes, names, order, colName, addCol).value.data == acc.data
    decreases |order|
  {
    if order != [] {
      var next := Process(acc, outcomes[order[0]], names[order[0]], colName, addCol).value;
      assert forall j :: 0 <= j < |order[1..]| ==> order[1..][j] == order[j + 1];
      CompletedFailuresOnly(next, outcomes, names, order[1..], colName, addCol);
    }
  }

  /** Two connections sharing a name: the one that completes last is the
      one kept. */
  lemma SharedNameLastCompletionWins(o0: Outcome, o1: Outcome, n: Value, colName: string, addCol: bool)
    requires o0.Success? && o1.Success? && Tabular(o0) && Tabular(o1)
    ensures Completed(NothingCollected, [o0, o1], [n, n], [0, 1], colName, addCol) == Ok(Collected([(n, Frame(o1, n, colName, addCol))], []))
    ensures Completed(NothingCollected, [o0, o1], [n, n], [1, 0], colName, addCol) == Ok(Collected([(n, Frame(o0, n, colName, addCol))], []))
  {
    var f0 := Frame(o0, n, colName, addCol);
    var f1 := Frame(o1, n, colName, addCol);
    assert Process(NothingCollected, o0, n, colName, addCol) == Ok(Collected([(n, f0)], []));
    assert Put([(n, f0)], n, f1) == [(n, f1)];
    assert Process(Collected([(n, f0)], []), o1, n, colName, addCol) == Ok(Collected([(n, f1)], []));
    assert Process(NothingCollected, o1, n, colName, addCol) == Ok(Collected([(n, f1)], []));
    assert Put([(n, f1)], n, f0) == [(n, f0)];
    assert Process(Collected([(n, f1)], []), o0, n, colName, addCol) == Ok(Collected([(n, f0)], []));
    assert [0, 1][1..] == [1] && [1, 0][1..] == [0];
    assert [1][1..] == [] && [0][1..] == [];
  }

  // ---------------------------------------------------------------------
  // Names

  /** `config["name"]`, the key the thread-pool loops record under. */
  const NameOf: (string, Value) -> Result<Value> := (connection: string, config: Value) => Subscript(config, "name")

  /** The name of every configuration, in registry order, or the error of
      the first one that has none. */
  function Names(connections: Dict<string, Value>): Result<Dict<string, Value>>
  {
    TryMap(connections, NameOf)
  }

  /** The registry keys, as keys of `data` and `failed`. */
  function RegistryNames(connections: Dict<string, Value>): (r: seq<Value>)
    ensures |r| == |connections|
    ensures forall i :: 0 <= i < |connections| ==> r[i] == Str(connections[i].0)
    ensures UniqueKeys(connections) ==> Distinct(r)
  {
    seq(|connections|, i requires 0 <= i < |connections| => Str(connections[i].0))
  }

  // ---------------------------------------------------------------------
  // The thread pool

  /** The submitting loop: `execute_query` runs for each connection, then
      its `config["name"]` is read; a missing name stops the loop after
      that connection's query was submitted. */
  method Submit(connections: Dict<string, Value>, engines: Dict<string, Engine>, server: Server, query: string, commit: bool)
    returns (futures: seq<Outcome>, names: Result<Dict<string, Value>>, executed: seq<string>)
    ensures names == Names(connections)
    ensures names.Ok? ==> futures == Outcomes(connections, engines, server, query, commit) && executed == Keys(connections)
    ensures names.Err? ==> 0 < |executed| <= |connections| && executed == Keys(connections)[..|executed|]
    ensures names.Err? ==> var n := |executed| - 1;
      0 <= n < |connections| && NameOf(connections[n].0, connections[n].1) == Err(names.error) &&
      FirstFailure(connections, NameOf, n) &&
      futures == Outcomes(connections, engines, server, query, commit)[..n + 1]
  {
    ghost var outcomes := Outcomes(connections, engines, server, query, commit);
    futures := [];
    executed := [];
    var named: Dict<string, Value> := [];
    var i := 0;
    while i < |connections|
      invariant 0 <= i <= |connections|
      invariant futures == outcomes[..i] && executed == Keys(connections)[..i]
      invariant |named| == i
      invariant forall j :: 0 <= j < i ==> named[j].0 == connections[j].0 && Subscript(connections[j].1, "name") == Ok(named[j].1)
    {
      var (connection, config) := connections[i];
      var run := ExecuteQuery(engines, server, query, connection, commit);
      KeysPrefix(connections, i);
      assert outcomes[..i + 1] == outcomes[..i] + [run.outcome];
      executed := executed + [connection];
      futures := futures + [run.outcome];
      var name := Subscript(config, "name");
      if name.Err? {
        TryMapFails(connections, NameOf, i);
        return futures, Err(name.error), executed;
      }
      named := named + [(connection, name.value)];
      i := i + 1;
    }
    assert forall j :: 0 <= j < |connections| ==> NameOf(connections[j].0, connections[j].1) == Subscript(connections[j].1, "name");
    TryMapSucceeds(connections, NameOf, named);
    names := Ok(named);
  }

  /** The loop over `as_completed`: record each outcome as its connection
      completes. */
  method CollectInOrder(acc: Collected, outcomes: seq<Outcome>, names: seq<Value>, order: seq<nat>, colName: string, addCol: bool)
    returns (r: Result<Collected>)
    requires |outcomes| == |names|
    requires forall j :: 0 <= j < |order| ==> order[j] < |names|
    ensures r == Completed(acc, outcomes, names, order, colName, addCol)
  {
    var current := acc;
    var j := 0;
    while j < |order|
      invariant 0 <= j <= |order|
      invariant Completed(current, outcomes, names, order[j..], colName, addCol) == Completed(acc, outcomes, names, order, colName, addCol)
    {
      var k := order[j];
      CompletedStep(current, outcomes, names, order, j, colName, addCol);
      var next := Process(current, outcomes[k], names[k], colName, addCol);
      if next.Err? {
        return Err(next.error);
      }
      current := next.value;
      j := j + 1;
    }
    return Ok(current);
  }
}
