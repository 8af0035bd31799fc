/** manager.py: the connection manager of the script version.  It differs
    from the packaged one in three ways: only a top-level `password` entry
    of each connection is substituted, without quoting; every field of the
    connection string is read from the configuration itself, before the
    database type is checked; and the URL scheme is
    `postgresql+psycopg2://`.  Filtering, engines and disposal are the
    shared ones of `Managers`. */
module RootManager {
  import opened Python
  import opened Dicts
  import opened Types
  import opened Sql
  import opened Managers
  import DbManager

  // ---------------------------------------------------------------------
  // Passwords

  /** The value the password loop leaves under `key`: a `password` that
      is a `${NAME}` placeholder is replaced by the variable's value, as
      it is; any other entry is kept.  Testing a `password` that is not a
      string raises `AttributeError` (it has no `startswith`), a missing
      variable raises `KeyError`. */
  function ResolveEntry(key: string, value: Value, env: DbManager.Env): (r: Result<Value>)
    ensures key != "password" ==> r == Ok(value)
    ensures key == "password" && !value.Str? ==> r == Err(AttributeError("startswith"))
    ensures key == "password" && value.Str? && !DbManager.IsPlaceholder(value.s) ==> r == Ok(value)
    ensures key == "password" && value.Str? && DbManager.IsPlaceholder(value.s) ==>
      var name := DbManager.PlaceholderName(value.s);
      (r.Ok? <==> name in env) && (r.Err? ==> r.error == KeyError(Str(name)))
  {
    if key != "password" then Ok(value)
    else if !value.Str? then Err(AttributeError("startswith"))
    else if !DbManager.IsPlaceholder(value.s) then Ok(value)
    else
      var name := DbManager.PlaceholderName(value.s);
      if name in env then Ok(Str(env[name])) else Err(KeyError(Str(name)))
  }

  function EntryStep(env: DbManager.Env): (string, Value) -> Result<Value>
  {
    (key: string, value: Value) => ResolveEntry(key, value, env)
  }

  /** One connection's configuration after the inner loop; a
      configuration that is not a dictionary has no `items()`. */
  function ResolveInformation(information: Value, env: DbManager.Env): (r: Result<Value>)
    ensures !information.IsDict() ==> r == Err(AttributeError("items"))
  {
    if !information.IsDict() then Err(AttributeError("items"))
    else
      var entries :- TryMap(information.entries, EntryStep(env));
      if information.DictV? then Ok(DictV(entries)) else Ok(StructV(entries))
  }

  function InformationStep(env: DbManager.Env): (string, Value) -> Result<Value>
  {
    (name: string, information: Value) => ResolveInformation(information, env)
  }

  /** The password loop of `_get_gonnections()`. */
  function ResolveRegistry(d: Dict<string, Value>, env: DbManager.Env): Result<Dict<string, Value>>
  {
    TryMap(d, InformationStep(env))
  }

  /** The loop touches nothing but top-level `password` entries: the keys
      stay, so do all other values (nested sections included), and a
      placeholder password becomes the variable's unquoted value. */
  lemma OnlyPasswordsChange(information: Value, env: DbManager.Env, i: nat)
    requires ResolveInformation(information, env).Ok?
    ensures var r := ResolveInformation(information, env).value;
      r.IsDict() && r.DictV? == information.DictV? && Keys(r.entries) == Keys(information.entries)
    ensures var r := ResolveInformation(information, env).value;
      i < |r.entries| && information.entries[i].0 != "password" ==> r.entries[i] == information.entries[i]
    ensures var r := ResolveInformation(information, env).value;
      i < |r.entries| && information.entries[i].0 == "password" && information.entries[i].1.Str? &&
      DbManager.IsPlaceholder(information.entries[i].1.s) ==>
        r.entries[i].1 == Str(env[DbManager.PlaceholderName(information.entries[i].1.s)])
  {
  }

  /** The loop keeps the `Struct` shape of the configurations. */
  lemma ResolveKeepsShape(d: Dict<string, Value>, env: DbManager.Env)
    requires forall i :: 0 <= i < |d| ==> WellWrapped(d[i].1)
    requires ResolveRegistry(d, env).Ok?
    ensures Keys(ResolveRegistry(d, env).value) == Keys(d)
    ensures forall i :: 0 <= i < |d| ==> WellWrapped(ResolveRegistry(d, env).value[i].1)
  {
    var r := ResolveRegistry(d, env).value;
    forall i | 0 <= i < |d| ensures WellWrapped(r[i].1) {
      var info := d[i].1;
      var e := r[i].1.entries;
      forall k | 0 <= k < |e| ensures WellWrapped(e[k].1) {
        OnlyPasswordsChange(info, env, k);
      }
    }
  }

  /** The inner loop: each `password` entry of one configuration
      replaced in place. */
  method ResolveInformationInPlace(information: Value, env: DbManager.Env) returns (r: Result<Value>)
    ensures r == ResolveInformation(information, env)
  {
    if !information.IsDict() {
      return Err(AttributeError("items"));
    }
    var entries := information.entries;
    var i := 0;
    while i < |entries|
      invariant 0 <= i <= |entries| == |information.entries|
      invariant TryMap(information.entries[..i], EntryStep(env)) == Ok(entries[..i])
      invariant entries[i..] == information.entries[i..]
    {
      UpdatePrefix(entries, information.entries, i, entries[i]);
      var (key, value) := entries[i];
      TryMapSnoc(information.entries, EntryStep(env), i);
      assert EntryStep(env)(key, value) == ResolveEntry(key, value, env);
      var next := value;
      if key == "password" {
        if !value.Str? {
          return Err(AttributeError("startswith"));
        }
        if DbManager.IsPlaceholder(value.s) {
          var name := DbManager.PlaceholderName(value.s);
          if name !in env {
            return Err(KeyError(Str(name)));
          }
          next := Str(env[name]);
        }
      }
      UpdatePrefix(entries, information.entries, i, (key, next));
      entries := entries[i := (key, next)];
      i := i + 1;
    }
    assert information.entries[..i] == information.entries && entries[..i] == entries;
    if information.DictV? {
      return Ok(DictV(entries));
    }
    return Ok(StructV(entries));
  }

  /** The password loop of `_get_gonnections()`, over the merged
      registry: the first configuration that raises stops it. */
  method GetConnections(loaded: Dict<string, Value>, env: DbManager.Env) returns (r: Result<Dict<string, Value>>)
    ensures r == ResolveRegistry(loaded, env)
  {
    var connections := loaded;
    var i := 0;
    while i < |connections|
      invariant 0 <= i <= |connections| == |loaded|
      invariant TryMap(loaded[..i], InformationStep(env)) == Ok(connections[..i])
      invariant connections[i..] == loaded[i..]
    {
      UpdatePrefix(connections, loaded, i, connections[i]);
      var (name, information) := connections[i];
      var resolved := ResolveInformationInPlace(information, env);
      TryMapSnoc(loaded, InformationStep(env), i);
      if resolved.Err? {
        return Err(resolved.error);
      }
      UpdatePrefix(connections, loaded, i, (name, resolved.value));
      connections := connections[i := (name, resolved.value)];
      i := i + 1;
    }
    assert loaded[..i] == loaded && connections[..i] == connections;
    return Ok(connections);
  }

  // ---------------------------------------------------------------------
  // Connection strings

  /** The URL scheme of the script version. */
  const Scheme := "postgresql+psycopg2://"

  /** `_build_connstring(config)`: all six fields are read from the
      configuration, then the type is checked. */
  function BuildConnstring(config: Value): Result<string>
  {
    var dbType :- Attr(config, "type");
    var host :- Attr(config, "host");
    var port :- Attr(config, "port");
    var database :- Attr(config, "database");
    var username :- Attr(config, "username");
    var password :- Attr(config, "password");
    var parts := UrlParts(Show(username), Show(password), Show(host), Show(port), Show(database));
    if dbType == Str("postgresql") then Ok(RenderUrl(Scheme, parts)) else Err(NotImplementedError(dbType))
  }

  /** The configuration has all six fields `_build_connstring` reads. */
  predicate HasFields(config: Value)
  {
    Attr(config, "type").Ok? && Attr(config, "host").Ok? && Attr(config, "port").Ok? &&
    Attr(config, "database").Ok? && Attr(config, "username").Ok? && Attr(config, "password").Ok?
  }

  /** None of the fields is a `dict` method, so reading each is
      `Struct.__getattr__`. */
  lemma FieldsAreAttributes()
    ensures forall n :: n in ["type", "host", "port", "database", "username", "password"] ==> n !in DictMethods
  {
  }

  /** The fields are read in the order type, host, port, database,
      username, password, and the first missing one is reported whatever
      the type is; only a configuration with all six fields can fail with
      `NotImplementedError`, and a PostgreSQL one with all six succeeds. */
  lemma BuildConnstringReadsAllFirst(config: Value)
    ensures Attr(config, "type").Err? ==> BuildConnstring(config) == Err(AttributeError("type"))
    ensures Attr(config, "type").Ok? && Attr(config, "host").Err? ==>
      BuildConnstring(config) == Err(AttributeError("host"))
    ensures Attr(config, "type").Ok? && Attr(config, "host").Ok? && Attr(config, "port").Err? ==>
      BuildConnstring(config) == Err(AttributeError("port"))
    ensures (Attr(config, "type").Ok? && Attr(config, "host").Ok? && Attr(config, "port").Ok? &&
             Attr(config, "database").Err?) ==>
      BuildConnstring(config) == Err(AttributeError("database"))
    ensures (Attr(config, "type").Ok? && Attr(config, "host").Ok? && Attr(config, "port").Ok? &&
             Attr(config, "database").Ok? && Attr(config, "username").Err?) ==>
      BuildConnstring(config) == Err(AttributeError("username"))
    ensures (Attr(config, "type").Ok? && Attr(config, "host").Ok? && Attr(config, "port").Ok? &&
             Attr(config, "database").Ok? && Attr(config, "username").Ok? && Attr(config, "password").Err?) ==>
      BuildConnstring(config) == Err(AttributeError("password"))
    ensures HasFields(config) ==> (BuildConnstring(config).Ok? <==> Attr(config, "type").value == Str("postgresql"))
    ensures HasFields(config) && Attr(config, "type").value != Str("postgresql") ==>
      BuildConnstring(config) == Err(NotImplementedError(Attr(config, "type").value))
  {
  }

  /** The two managers disagree about a MySQL configuration without a
      host: the script version complains about the host, the packaged
      one about the database type. */
  lemma ErrorOrderDiffers()
    ensures var config := StructV([("type", Str("mysql"))]);
      BuildConnstring(config) == Err(AttributeError("host")) &&
      DbManager.BuildConnstring(config, "prod") == Err(NotImplementedError(Str("mysql")))
  {
    var config := StructV([("type", Str("mysql"))]);
    assert Get(config.entries, "type") == Some(Str("mysql"));
    assert Get(config.entries, "host") == None;
  }

  /** A connection string reads back into the configuration's fields
      when they contain no URL delimiter. */
  lemma ConnstringRoundTrip(config: Value)
    requires BuildConnstring(config).Ok?
    ensures var p := UrlParts(Show(Attr(config, "username").value), Show(Attr(config, "password").value),
        Show(Attr(config, "host").value), Show(Attr(config, "port").value), Show(Attr(config, "database").value));
      ':' !in p.username && '@' !in p.password && ':' !in p.host && '/' !in p.port ==>
        ParseUrl(Scheme, BuildConnstring(config).value) == Some(p)
  {
    var p := UrlParts(Show(Attr(config, "username").value), Show(Attr(config, "password").value),
        Show(Attr(config, "host").value), Show(Attr(config, "port").value), Show(Attr(config, "database").value));
    if ':' !in p.username && '@' !in p.password && ':' !in p.host && '/' !in p.port {
      ParseRenderUrl(Scheme, p);
    }
  }

  function ConnstringBuilder(): Builder
  {
    (config: Value) => BuildConnstring(config)
  }

  // ---------------------------------------------------------------------
  // Initialisation

  /** The connections `DBConnectionManager(allowlist)` ends up with, or
      the error its construction raises. */
  function Initialized(allowlist: seq<string>, loaded: Dict<string, Value>, env: DbManager.Env): Result<Dict<string, Value>>
  {
    var resolved :- ResolveRegistry(loaded, env);
    WithConnstrings(Kept(resolved, allowlist), ConnstringBuilder())
  }

  /** `entry` is the registry entry `original` after the password loop
      and the connection-string loop: its resolved configuration with the
      connection string built from it under `connstring`. */
  predicate Connstringed(entry: (string, Value), original: (string, Value), env: DbManager.Env)
  {
    entry.0 == original.0 && HasConnstring(entry.1) && ResolveInformation(original.1, env).Ok? &&
    BuildConnstring(ResolveInformation(original.1, env).value) == Ok(ConnstringOf(entry.1)) &&
    BuiltFrom(entry, original.0, ResolveInformation(original.1, env).value, ConnstringBuilder())
  }

  /** A manager keeps exactly the connections it was asked for, each
      with the connection string of its own configuration. */
  lemma InitializedConnections(allowlist: seq<string>, loaded: Dict<string, Value>, env: DbManager.Env, name: string)
    requires forall i :: 0 <= i < |loaded| ==> WellWrapped(loaded[i].1)
    requires Initialized(allowlist, loaded, env).Ok?
    ensures HasConnstrings(Initialized(allowlist, loaded, env).value)
    ensures name in Keys(Initialized(allowlist, loaded, env).value) <==>
      name in Keys(loaded) && (allowlist == [] || name in allowlist)
    ensures var c := Initialized(allowlist, loaded, env).value;
      forall i :: 0 <= i < |c| ==> exists j :: 0 <= j < |loaded| && Connstringed(c[i], loaded[j], env)
  {
    var resolved := ResolveRegistry(loaded, env).value;
    ResolveKeepsShape(loaded, env);
    var kept := Kept(resolved, allowlist);
    KeptEntries(resolved, allowlist, name);
    assert Initialized(allowlist, loaded, env) == WithConnstrings(kept, ConnstringBuilder());
    WithConnstringsShape(kept, ConnstringBuilder());
    var c := WithConnstrings(kept, ConnstringBuilder()).value;
    forall i | 0 <= i < |c| ensures exists j :: 0 <= j < |loaded| && Connstringed(c[i], loaded[j], env) {
      var j :| 0 <= j < |resolved| && resolved[j] == kept[i];
      ConnstringedEntry(c[i], resolved[j], loaded[j], env);
    }
  }

  /** A registry with distinct names, as a dictionary read from a file
      has, gives a manager whose connections have distinct names. */
  lemma InitializedUniqueKeys(allowlist: seq<string>, loaded: Dict<string, Value>, env: DbManager.Env)
    requires forall i :: 0 <= i < |loaded| ==> WellWrapped(loaded[i].1)
    requires UniqueKeys(loaded) && Initialized(allowlist, loaded, env).Ok?
    ensures UniqueKeys(Initialized(allowlist, loaded, env).value)
  {
    var resolved := ResolveRegistry(loaded, env).value;
    ResolveKeepsShape(loaded, env);
    if allowlist != [] {
      FilteredUnique(resolved, allowlist);
    }
    WithConnstringsShape(Kept(resolved, allowlist), ConnstringBuilder());
  }

  lemma ConnstringedEntry(entry: (string, Value), resolvedEntry: (string, Value), original: (string, Value),
                          env: DbManager.Env)
    requires ResolveInformation(original.1, env).Ok?
    requires resolvedEntry == (original.0, ResolveInformation(original.1, env).value)
    requires entry.0 == resolvedEntry.0 && HasConnstring(entry.1)
    requires ConnstringBuilder()(resolvedEntry.1) == Ok(ConnstringOf(entry.1))
    requires BuiltFrom(entry, resolvedEntry.0, resolvedEntry.1, ConnstringBuilder())
    ensures Connstringed(entry, original, env)
  {
  }

  /** `DBConnectionManager(allowlist)`, with the registry already read
      from disk. */
  method NewManager(allowlist: seq<string>, loaded: Dict<string, Value>, env: DbManager.Env) returns (r: Result<Manager>)
    ensures r.Err? <==> Initialized(allowlist, loaded, env).Err?
    ensures r.Err? ==> r.error == Initialized(allowlist, loaded, env).error
    ensures r.Ok? ==> fresh(r.value)
    ensures r.Ok? ==> r.value.connections == Initialized(allowlist, loaded, env).value
    ensures r.Ok? ==> HasConnstrings(r.value.connections) && r.value.engines == EnginesFor(r.value.connections)
    ensures r.Ok? ==> r.value.disposed == []
  {
    var resolved := GetConnections(loaded, env);
    if resolved.Err? {
      return Err(resolved.error);
    }
    r := Finish(resolved.value, allowlist, ConnstringBuilder());
  }
}
