/** What the two connection managers (db_tools/database/manager.py and
    manager.py) share: the connection table, filtering it by name,
    storing a connection string in every configuration, one engine per
    connection and disposing of all engines.  The two differ only in how
    a connection string is built and in how the registry is prepared, so
    the builder is a parameter here. */
module Managers {
  import opened Python
  import opened Dicts
  import opened Types
  import opened Sql

  /** A `_build_connstring`: the URL of a configuration, or the error it
      raises. */
  type Builder = Value -> Result<string>

  // ---------------------------------------------------------------------
  // Filtering

  /** The entries of `d` whose key is in `keep`, in the order of `d`. */
  function Filtered(d: Dict<string, Value>, keep: seq<string>): (r: Dict<string, Value>)
    ensures forall k :: k in Keys(r) <==> k in Keys(d) && k in keep
    ensures forall i :: 0 <= i < |r| ==> r[i] in d
  {
    if d == [] then []
    else
      var rest := Filtered(d[1..], keep);
      if d[0].0 in keep then
        var r := [d[0]] + rest;
        assert Keys(r) == [d[0].0] + Keys(rest);
        r
      else rest
  }

  /** Filtering keeps the names of a registry distinct. */
  lemma {:induction false} FilteredUnique(d: Dict<string, Value>, keep: seq<string>)
    requires UniqueKeys(d)
    ensures UniqueKeys(Filtered(d, keep))
  {
    if d != [] {
      UniqueTail(d);
      FilteredUnique(d[1..], keep);
      var rest := Filtered(d[1..], keep);
      if d[0].0 in keep {
        DistinctPrepend(d[0].0, Keys(rest));
        assert Keys([d[0]] + rest) == [d[0].0] + Keys(rest);
      }
    }
  }

  /** Filtering a registry whose configurations already have the
      `Struct` shape and re-wrapping the result changes no configuration. */
  lemma FilterKeepsConfigurations(d: Dict<string, Value>, keep: seq<string>)
    requires forall i :: 0 <= i < |d| ==> WellWrapped(d[i].1)
    ensures Construct(Filtered(d, keep)) == Filtered(d, keep)
  {
    var f := Filtered(d, keep);
    forall i | 0 <= i < |f| ensures Construct(f)[i] == f[i] {
      WrapFixesWellWrapped(f[i].1);
    }
  }

  /** The registry `__init__` goes on with: filtered when a list of names
      was given, all of it when the list is empty. */
  function Kept(registry: Dict<string, Value>, allowlist: seq<string>): Dict<string, Value>
  {
    if allowlist != [] then Construct(Filtered(registry, allowlist)) else registry
  }

  /** The kept connections are exactly the named ones (unknown names are
      ignored), with their configurations unchanged. */
  lemma KeptEntries(registry: Dict<string, Value>, allowlist: seq<string>, name: string)
    requires forall i :: 0 <= i < |registry| ==> WellWrapped(registry[i].1)
    ensures name in Keys(Kept(registry, allowlist)) <==> name in Keys(registry) && (allowlist == [] || name in allowlist)
    ensures forall i :: 0 <= i < |Kept(registry, allowlist)| ==> Kept(registry, allowlist)[i] in registry
  {
    if allowlist != [] {
      FilterKeepsConfigurations(registry, allowlist);
    }
  }

  // ---------------------------------------------------------------------
  // Connection strings and engines

  /** A configuration after `config.connstring = build(config)`; only a
      `Struct` accepts the assignment. */
  function WithConnstring(config: Value, build: Builder): (r: Result<Value>)
    ensures r.Ok? <==> build(config).Ok? && config.StructV?
    ensures build(config).Err? ==> r == Err(build(config).error)
    ensures build(config).Ok? && !config.StructV? ==> r == Err(AttributeError("connstring"))
  {
    var connstring :- build(config);
    SetAttr(config, "connstring", Str(connstring))
  }

  /** The connection string a configuration carries. */
  predicate HasConnstring(config: Value)
  {
    Attr(config, "connstring").Ok? && Attr(config, "connstring").value.Str?
  }

  function ConnstringOf(config: Value): string
    requires HasConnstring(config)
  {
    Attr(config, "connstring").value.s
  }

  /** After the assignment the configuration carries the string built
      for it, and it has gained the key `connstring` if it lacked it. */
  lemma WithConnstringCarriesIt(config: Value, build: Builder)
    requires WithConnstring(config, build).Ok?
    ensures HasConnstring(WithConnstring(config, build).value)
    ensures ConnstringOf(WithConnstring(config, build).value) == build(config).value
    ensures Keys(WithConnstring(config, build).value.entries) ==
      if "connstring" in Keys(config.entries) then Keys(config.entries) else Keys(config.entries) + ["connstring"]
  {
    GetPut(config.entries, "connstring", Str(build(config).value), "connstring");
  }

  function ConnstringStep(build: Builder): (string, Value) -> Result<Value>
  {
    (name: string, config: Value) => WithConnstring(config, build)
  }

  /** The registry after the connection-string loop of `__init__`, or the
      error of the first configuration that has none. */
  function WithConnstrings(d: Dict<string, Value>, build: Builder): Result<Dict<string, Value>>
  {
    TryMap(d, ConnstringStep(build))
  }

  /** Every configuration of the registry carries a connection string. */
  predicate HasConnstrings(d: Dict<string, Value>)
  {
    forall i :: 0 <= i < |d| ==> HasConnstring(d[i].1)
  }

  /** `entry` is connection `name` with configuration `config` after
      `config.connstring = build(config)`: the `Struct` `config` whose
      `connstring` attribute is set to the string built from it, every
      other attribute as it was. */
  predicate BuiltFrom(entry: (string, Value), name: string, config: Value, build: Builder)
  {
    entry.0 == name && config.StructV? && build(config).Ok? &&
    entry.1 == StructV(SetAttrEntries(config.entries, "connstring", Str(build(config).value)))
  }

  /** The loop keeps the connection names and gives every configuration
      the string built from it, changing nothing else. */
  lemma WithConnstringsShape(d: Dict<string, Value>, build: Builder)
    requires WithConnstrings(d, build).Ok?
    ensures var c := WithConnstrings(d, build).value;
      Keys(c) == Keys(d) && HasConnstrings(c) &&
      forall i :: 0 <= i < |c| ==> build(d[i].1) == Ok(ConnstringOf(c[i].1)) && BuiltFrom(c[i], d[i].0, d[i].1, build)
  {
    var c := WithConnstrings(d, build).value;
    forall i | 0 <= i < |c|
      ensures HasConnstring(c[i].1) && build(d[i].1) == Ok(ConnstringOf(c[i].1)) && BuiltFrom(c[i], d[i].0, d[i].1, build)
    {
      WithConnstringCarriesIt(d[i].1, build);
    }
  }

  /** `_create_engines()`: one engine per connection, under the
      connection's name, built from its connection string. */
  function EnginesFor(d: Dict<string, Value>): (r: Dict<string, Engine>)
    requires HasConnstrings(d)
    ensures Keys(r) == Keys(d)
    ensures forall i :: 0 <= i < |d| ==> r[i].1 == Engine(ConnstringOf(d[i].1))
  {
    seq(|d|, i requires 0 <= i < |d| => (d[i].0, Engine(ConnstringOf(d[i].1))))
  }

  // ---------------------------------------------------------------------
  // The manager

  class Manager {
    /** `self.connections`: connection name to configuration. */
    var connections: Dict<string, Value>
    /** `self.engines`: connection name to engine. */
    var engines: Dict<string, Engine>
    /** The engines disposed of so far, in order. */
    var disposed: seq<Engine>

    constructor (registry: Dict<string, Value>)
      ensures connections == registry && engines == [] && disposed == []
    {
      connections := registry;
      engines := [];
      disposed := [];
    }

    /** `_filter_connections(keep)`. */
    method FilterConnections(keep: seq<string>)
      modifies this
      ensures connections == Construct(Filtered(old(connections), keep))
      ensures engines == old(engines) && disposed == old(disposed)
    {
      connections := Construct(Filtered(connections, keep));
    }

    /** The loop of `__init__` that stores a connection string in every
        configuration; it stops at the first configuration that has
        none. */
    method BuildConnstrings(build: Builder) returns (err: Option<Error>)
      modifies this
      ensures WithConnstrings(old(connections), build).Ok? ==>
        err == None && connections == WithConnstrings(old(connections), build).value
      ensures WithConnstrings(old(connections), build).Err? ==>
        err == Some(WithConnstrings(old(connections), build).error)
      ensures engines == old(engines) && disposed == old(disposed)
    {
      var original := connections;
      var cur := original;
      var i := 0;
      while i < |cur|
        invariant 0 <= i <= |cur| == |original|
        invariant connections == original && engines == old(engines) && disposed == old(disposed)
        invariant TryMap(original[..i], ConnstringStep(build)) == Ok(cur[..i])
        invariant cur[i..] == original[i..]
      {
        UpdatePrefix(cur, original, i, cur[i]);
        var (name, config) := cur[i];
        TryMapSnoc(original, ConnstringStep(build), i);
        var connstring := build(config);
        if connstring.Err? {
          connections := cur;
          err := Some(connstring.error);
          return;
        }
        var updated := SetAttr(config, "connstring", Str(connstring.value));
        if updated.Err? {
          connections := cur;
          err := Some(updated.error);
          return;
        }
        UpdatePrefix(cur, original, i, (name, updated.value));
        cur := cur[i := (name, updated.value)];
        i := i + 1;
      }
      assert original[..i] == original && cur[..i] == cur;
      connections := cur;
      err := None;
    }

    /** `self.engines = self._create_engines()`. */
    method CreateEngines()
      requires HasConnstrings(connections)
      modifies this
      ensures connections == old(connections) && disposed == old(disposed)
      ensures engines == EnginesFor(connections)
    {
      var created: Dict<string, Engine> := [];
      var i := 0;
      while i < |connections|
        invariant 0 <= i <= |connections|
        invariant created == EnginesFor(connections[..i])
      {
        var (name, config) := connections[i];
        assert connections[..i + 1] == connections[..i] + [connections[i]];
        created := created + [(name, Engine(ConnstringOf(config)))];
        i := i + 1;
      }
      assert connections[..i] == connections;
      engines := created;
    }

    /** `close_all()`: every engine is disposed of once, in order, and the
        engine table is emptied; the configurations stay. */
    method CloseAll()
      modifies this
      ensures disposed == old(disposed) + Values(old(engines))
      ensures engines == [] && connections == old(connections)
    {
      var i := 0;
      while i < |engines|
        invariant 0 <= i <= |engines| && engines == old(engines) && connections == old(connections)
        invariant disposed == old(disposed) + Values(engines[..i])
      {
        assert Values(engines[..i + 1]) == Values(engines[..i]) + [engines[i].1];
        disposed := disposed + [engines[i].1];
        i := i + 1;
      }
      assert engines[..i] == engines;
      engines := [];
    }
  }

  /** Closing twice disposes of each engine once. */
  method CloseTwice(m: Manager)
    modifies m
    ensures m.disposed == old(m.disposed) + Values(old(m.engines))
    ensures m.engines == []
  {
    m.CloseAll();
    m.CloseAll();
  }

  /** The rest of `__init__` once the registry is prepared: filter, build
      the connection strings, create the engines. */
  method Finish(registry: Dict<string, Value>, allowlist: seq<string>, build: Builder) returns (r: Result<Manager>)
    ensures r.Err? <==> WithConnstrings(Kept(registry, allowlist), build).Err?
    ensures r.Err? ==> r.error == WithConnstrings(Kept(registry, allowlist), build).error
    ensures r.Ok? ==> fresh(r.value)
    ensures r.Ok? ==> r.value.connections == WithConnstrings(Kept(registry, allowlist), build).value
    ensures r.Ok? ==> HasConnstrings(r.value.connections) && r.value.engines == EnginesFor(r.value.connections)
    ensures r.Ok? ==> r.value.disposed == []
  {
    var m := new Manager(registry);
    if allowlist != [] {
      m.FilterConnections(allowlist);
    }
    ghost var kept := m.connections;
    assert kept == Kept(registry, allowlist);
    var err := m.BuildConnstrings(build);
    if err.Some? {
      return Err(err.value);
    }
    WithConnstringsShape(kept, build);
    m.CreateEngines();
    return Ok(m);
  }
}
