/** db_tools/database/manager.py: the connection manager of the packaged
    tool.  It takes the merged connection registry, substitutes
    environment variables for `${NAME}` placeholders, keeps only the
    requested connections, gives every connection a `postgresql+psycopg`
    URL built for the chosen environment, creates one engine per
    connection and disposes of them all on request.

    Reading `config.toml` and the connection files is not modelled: the
    registry they produce is the parameter `loaded`. */
module DbManager {
  import opened Python
  import opened Dicts
  import opened Types
  import opened Sql
  import opened Managers

  /** The process environment, `os.environ`. */
  type Env = map<string, string>

  /** `urllib.parse.quote`, left uninterpreted. */
  type Quote = string -> string

  // ---------------------------------------------------------------------
  // Placeholders

  /** A string of the form `${NAME}`. */
  predicate IsPlaceholder(s: string)
  {
    StartsWith(s, "${") && EndsWith(s, "}")
  }

  /** `s[2:-1]`, the variable a placeholder names. */
  function PlaceholderName(s: string): (name: string)
    requires IsPlaceholder(s)
    ensures s == "${" + name + "}"
  {
    assert s[1] == s[..2][1] == '{';
    assert s[|s| - 1] == s[|s| - 1..][0] == '}';
    assert |s| >= 3;
    assert s == s[..2] + s[2..|s| - 1] + s[|s| - 1..];
    s[2..|s| - 1]
  }

  /** `_resolve_passwords(info)`: every dictionary becomes a `Struct` of
      its resolved entries, every placeholder string becomes the quoted
      value of its variable and anything else, lists included, is returned
      as it is.  A variable missing from the environment raises
      `KeyError`; entries are resolved in order, so the first missing
      variable is the one reported. */
  function ResolvePasswords(info: Value, env: Env, quote: Quote): Result<Value>
    decreases info, 1
  {
    match info
    case DictV(entries) => ResolveDict(info, entries, env, quote)
    case StructV(entries) => ResolveDict(info, entries, env, quote)
    case Str(s) =>
      if IsPlaceholder(s) then
        var name := PlaceholderName(s);
        if name in env then Ok(Str(quote(env[name]))) else Err(KeyError(Str(name)))
      else Ok(info)
    case _ => Ok(info)
  }

  function ResolveDict(ghost parent: Value, entries: seq<(string, Value)>, env: Env, quote: Quote): Result<Value>
    requires forall i :: 0 <= i < |entries| ==> entries[i].1 < parent
    decreases parent, 0
  {
    var resolved :- ResolveEntries(parent, entries, env, quote);
    Ok(StructV(Construct(resolved)))
  }

  function ResolveEntries(ghost parent: Value, entries: seq<(string, Value)>, env: Env, quote: Quote)
    : (r: Result<seq<(string, Value)>>)
    requires forall i :: 0 <= i < |entries| ==> entries[i].1 < parent
    ensures r.Ok? ==> |r.value| == |entries|
    ensures r.Ok? ==> forall i :: 0 <= i < |entries| ==>
      r.value[i].0 == entries[i].0 && ResolvePasswords(entries[i].1, env, quote) == Ok(r.value[i].1)
    decreases parent, 0, |entries|
  {
    if entries == [] then Ok([])
    else
      var first :- ResolvePasswords(entries[0].1, env, quote);
      var rest :- ResolveEntries(parent, entries[1..], env, quote);
      var r := [(entries[0].0, first)] + rest;
      assert forall i :: 0 < i < |entries| ==> entries[i] == entries[1..][i - 1] && r[i] == rest[i - 1];
      Ok(r)
  }

  /** The variables the placeholders reachable by `_resolve_passwords`
      name, in the order they are resolved. */
  function Placeholders(v: Value): seq<string>
    decreases v, 1
  {
    match v
    case DictV(entries) => EntryPlaceholders(v, entries)
    case StructV(entries) => EntryPlaceholders(v, entries)
    case Str(s) => if IsPlaceholder(s) then [PlaceholderName(s)] else []
    case _ => []
  }

  function EntryPlaceholders(ghost parent: Value, entries: seq<(string, Value)>): seq<string>
    requires forall i :: 0 <= i < |entries| ==> entries[i].1 < parent
    decreases parent, 0, |entries|
  {
    if entries == [] then [] else Placeholders(entries[0].1) + EntryPlaceholders(parent, entries[1..])
  }

  /** The first of `names` that `env` lacks. */
  function FirstMissing(names: seq<string>, env: Env): (r: Option<string>)
    ensures r.None? <==> forall n :: n in names ==> n in env
    ensures r.Some? ==> r.value in names && r.value !in env
    ensures r.Some? ==> exists i :: 0 <= i < |names| && names[i] == r.value && forall j :: 0 <= j < i ==> names[j] in env
  {
    if names == [] then None
    else if names[0] !in env then Some(names[0])
    else
      var r := FirstMissing(names[1..], env);
      assert r.Some? ==> exists i :: 0 < i < |names| && names[i] == r.value && forall j :: 0 <= j < i ==> names[j] in env by {
        if r.Some? {
          var i :| 0 <= i < |names[1..]| && names[1..][i] == r.value && forall j :: 0 <= j < i ==> names[1..][j] in env;
          assert forall j :: 0 <= j < i + 1 ==> names[j] in env by {
            forall j | 0 <= j < i + 1 ensures names[j] in env {
              if j > 0 { assert names[j] == names[1..][j - 1]; }
            }
          }
        }
      }
      r
  }

  lemma {:induction false} FirstMissingAppend(a: seq<string>, b: seq<string>, env: Env)
    ensures FirstMissing(a + b, env) == if FirstMissing(a, env).Some? then FirstMissing(a, env) else FirstMissing(b, env)
  {
    if a != [] {
      assert (a + b)[1..] == a[1..] + b;
      FirstMissingAppend(a[1..], b, env);
    } else {
      assert a + b == b;
    }
  }

  /** Resolution fails exactly when a placeholder names a variable the
      environment lacks, and it reports the first such variable. */
  lemma {:induction false} ResolveFailsOnMissing(info: Value, env: Env, quote: Quote)
    ensures ResolvePasswords(info, env, quote).Err? <==> FirstMissing(Placeholders(info), env).Some?
    ensures ResolvePasswords(info, env, quote).Err? ==>
      ResolvePasswords(info, env, quote).error == KeyError(Str(FirstMissing(Placeholders(info), env).value))
    decreases info, 1
  {
    match info
    case DictV(entries) => EntriesFailOnMissing(info, entries, env, quote);
    case StructV(entries) => EntriesFailOnMissing(info, entries, env, quote);
    case _ =>
  }

  lemma {:induction false} EntriesFailOnMissing(parent: Value, entries: seq<(string, Value)>, env: Env, quote: Quote)
    requires forall i :: 0 <= i < |entries| ==> entries[i].1 < parent
    ensures ResolveEntries(parent, entries, env, quote).Err? <==> FirstMissing(EntryPlaceholders(parent, entries), env).Some?
    ensures ResolveEntries(parent, entries, env, quote).Err? ==>
      ResolveEntries(parent, entries, env, quote).error == KeyError(Str(FirstMissing(EntryPlaceholders(parent, entries), env).value))
    decreases parent, 0, |entries|
  {
    if entries != [] {
      ResolveFailsOnMissing(entries[0].1, env, quote);
      EntriesFailOnMissing(parent, entries[1..], env, quote);
      FirstMissingAppend(Placeholders(entries[0].1), EntryPlaceholders(parent, entries[1..]), env);
    }
  }

  /** Resolving keeps the `Struct` shape and turns every dictionary into
      a `Struct`. */
  lemma {:induction false} ResolveKeepsShape(info: Value, env: Env, quote: Quote)
    requires WellWrapped(info) || info.DictV?
    requires ResolvePasswords(info, env, quote).Ok?
    ensures WellWrapped(ResolvePasswords(info, env, quote).value)
    ensures info.IsDict() ==> ResolvePasswords(info, env, quote).value.StructV?
  {
    match info
    case DictV(entries) =>
      ConstructShape(ResolveEntries(info, entries, env, quote).value);
    case StructV(entries) =>
      ConstructShape(ResolveEntries(info, entries, env, quote).value);
    case _ =>
  }

  /** Once resolved (with a `quote` that never produces a placeholder),
      no placeholder is left where resolution looks. */
  lemma {:induction false} ResolvedHasNoPlaceholders(info: Value, env: Env, quote: Quote)
    requires forall s :: !IsPlaceholder(quote(s))
    requires ResolvePasswords(info, env, quote).Ok?
    ensures Placeholders(ResolvePasswords(info, env, quote).value) == []
    decreases info, 1
  {
    match info
    case DictV(entries) => ResolvedEntriesHaveNoPlaceholders(info, entries, env, quote);
    case StructV(entries) => ResolvedEntriesHaveNoPlaceholders(info, entries, env, quote);
    case Str(s) =>
      if IsPlaceholder(s) {
        assert !IsPlaceholder(quote(env[PlaceholderName(s)]));
      }
    case _ =>
  }

  lemma {:induction false} ResolvedEntriesHaveNoPlaceholders(parent: Value, entries: seq<(string, Value)>, env: Env, quote: Quote)
    requires forall i :: 0 <= i < |entries| ==> entries[i].1 < parent
    requires forall s :: !IsPlaceholder(quote(s))
    requires ResolveEntries(parent, entries, env, quote).Ok?
    ensures Placeholders(StructV(Construct(ResolveEntries(parent, entries, env, quote).value))) == []
    decreases parent, 0, |entries|
  {
    var resolved := ResolveEntries(parent, entries, env, quote).value;
    forall i | 0 <= i < |resolved| ensures Placeholders(Construct(resolved)[i].1) == [] {
      ResolvedHasNoPlaceholders(entries[i].1, env, quote);
      WrapKeepsNoPlaceholders(resolved[i].1);
    }
    NoPlaceholderEntriesAll(StructV(Construct(resolved)), Construct(resolved));
  }

  predicate NoPlaceholderEntries(entries: seq<(string, Value)>)
  {
    forall i :: 0 <= i < |entries| ==> Placeholders(entries[i].1) == []
  }

  lemma {:induction false} NoPlaceholderEntriesAll(parent: Value, entries: seq<(string, Value)>)
    requires forall i :: 0 <= i < |entries| ==> entries[i].1 < parent
    requires NoPlaceholderEntries(entries)
    ensures EntryPlaceholders(parent, entries) == []
    decreases |entries|
  {
    if entries != [] {
      NoPlaceholderEntriesAll(parent, entries[1..]);
    }
  }

  /** Wrapping a value in `Struct`s adds no placeholder. */
  lemma {:induction false} WrapKeepsNoPlaceholders(v: Value)
    requires Placeholders(v) == []
    ensures Placeholders(Wrap(v)) == []
    decreases v
  {
    match v
    case DictV(entries) =>
      WrapEntriesKeepNoPlaceholders(v, entries);
      NoPlaceholderEntriesAll(Wrap(v), WrapEntries(v, entries));
    case StructV(entries) =>
      WrapEntriesKeepNoPlaceholders(v, entries);
      NoPlaceholderEntriesAll(Wrap(v), WrapEntries(v, entries));
    case _ =>
  }

  lemma {:induction false} WrapEntriesKeepNoPlaceholders(parent: Value, entries: seq<(string, Value)>)
    requires forall i :: 0 <= i < |entries| ==> entries[i].1 < parent
    requires EntryPlaceholders(parent, entries) == []
    ensures NoPlaceholderEntries(WrapEntries(parent, entries))
    decreases parent, 0
  {
    forall i | 0 <= i < |entries| ensures Placeholders(Wrap(entries[i].1)) == [] {
      EntryPlaceholdersAt(parent, entries, i);
      WrapKeepsNoPlaceholders(entries[i].1);
    }
  }

  lemma {:induction false} EntryPlaceholdersAt(parent: Value, entries: seq<(string, Value)>, i: nat)
    requires forall j :: 0 <= j < |entries| ==> entries[j].1 < parent
    requires EntryPlaceholders(parent, entries) == []
    requires i < |entries|
    ensures Placeholders(entries[i].1) == []
    decreases i
  {
    if i > 0 {
      EntryPlaceholdersAt(parent, entries[1..], i - 1);
    }
  }

  /** The resolution loop of `_get_gonnections`, as a function: every
      registry entry resolved in order, the first failure raised. */
  function ResolveRegistry(d: Dict<string, Value>, env: Env, quote: Quote): Result<Dict<string, Value>>
  {
    TryMap(d, ResolveStep(env, quote))
  }

  function ResolveStep(env: Env, quote: Quote): (string, Value) -> Result<Value>
  {
    (name: string, information: Value) => ResolvePasswords(information, env, quote)
  }

  lemma ResolvedRegistryShape(loaded: Dict<string, Value>, env: Env, quote: Quote)
    requires forall i :: 0 <= i < |loaded| ==> WellWrapped(loaded[i].1)
    requires ResolveRegistry(loaded, env, quote).Ok?
    ensures var resolved := ResolveRegistry(loaded, env, quote).value;
      Keys(resolved) == Keys(loaded) &&
      forall i :: 0 <= i < |resolved| ==>
        WellWrapped(resolved[i].1) && ResolvePasswords(loaded[i].1, env, quote).Ok? &&
        resolved[i] == (loaded[i].0, ResolvePasswords(loaded[i].1, env, quote).value)
  {
    var resolved := ResolveRegistry(loaded, env, quote).value;
    forall i | 0 <= i < |resolved| ensures WellWrapped(resolved[i].1) {
      ResolveKeepsShape(loaded[i].1, env, quote);
    }
  }

  /** The resolution loop of `_get_gonnections()`: each entry of the
      merged registry is replaced by its resolved value. */
  method GetConnections(loaded: Dict<string, Value>, env: Env, quote: Quote) returns (r: Result<Dict<string, Value>>)
    ensures r == ResolveRegistry(loaded, env, quote)
  {
    var connections := loaded;
    var i := 0;
    while i < |connections|
      invariant 0 <= i <= |connections| == |loaded|
      invariant TryMap(loaded[..i], ResolveStep(env, quote)) == Ok(connections[..i])
      invariant connections[i..] == loaded[i..]
    {
      UpdatePrefix(connections, loaded, i, connections[i]);
      var (name, information) := connections[i];
      var resolved := ResolvePasswords(information, env, quote);
      TryMapSnoc(loaded, ResolveStep(env, quote), i);
      if resolved.Err? {
        return Err(resolved.error);
      }
      UpdatePrefix(connections, loaded, i, (name, resolved.value));
      connections := connections[i := (name, resolved.value)];
      i := i + 1;
    }
    assert loaded[..i] == loaded && connections[..i] == connections;
    return Ok(connections);
  }

  // ---------------------------------------------------------------------
  // Connection strings

  /** The URL scheme of the packaged tool. */
  const Scheme := "postgresql+psycopg://"

  /** The URL fields of `config` for `environment`: `host` from the
      environment section, `port` and `database` from the configuration,
      `username` and `password` from the environment section when it has
      them and otherwise from the configuration (`None` if absent).
      Lookups happen in this order, so the first missing one is reported. */
  function UrlFields(config: Value, environment: string): Result<UrlParts>
    requires config.StructV?
  {
    var section :- Subscript(config, environment);
    var host :- Attr(section, "host");
    var port :- Attr(config, "port");
    var database :- Attr(config, "database");
    var username := AttrOr(section, "username", DictGet(config, "username"));
    var password := AttrOr(section, "password", DictGet(config, "password"));
    Ok(UrlParts(Show(username), Show(password), Show(host), Show(port), Show(database)))
  }

  /** `_build_connstring(config, environment)`. */
  function BuildConnstring(config: Value, environment: string): Result<string>
  {
    var dbType :- Attr(config, "type");
    if dbType != Str("postgresql") then Err(NotImplementedError(dbType))
    else
      var parts :- UrlFields(config, environment);
      Ok(RenderUrl(Scheme, parts))
  }

  /** The database type is checked before any other field is read: a
      configuration without one raises `AttributeError`, one that is not
      PostgreSQL raises `NotImplementedError` whatever else it lacks, and
      a PostgreSQL configuration gets the URL of its fields. */
  lemma BuildConnstringChecksTypeFirst(config: Value, environment: string)
    ensures Attr(config, "type").Err? ==> BuildConnstring(config, environment) == Err(AttributeError("type"))
    ensures Attr(config, "type").Ok? && Attr(config, "type").value != Str("postgresql") ==>
      BuildConnstring(config, environment) == Err(NotImplementedError(Attr(config, "type").value))
    ensures BuildConnstring(config, environment).Ok? <==>
      Attr(config, "type") == Ok(Str("postgresql")) && UrlFields(config, environment).Ok?
    ensures BuildConnstring(config, environment).Ok? ==>
      BuildConnstring(config, environment).value == RenderUrl(Scheme, UrlFields(config, environment).value)
  {
  }

  /** A connection string reads back into the fields it was built from,
      provided the fields contain no URL delimiter. */
  lemma ConnstringRoundTrip(config: Value, environment: string)
    requires BuildConnstring(config, environment).Ok?
    requires config.StructV?
    requires var p := UrlFields(config, environment).value;
      ':' !in p.username && '@' !in p.password && ':' !in p.host && '/' !in p.port
    ensures ParseUrl(Scheme, BuildConnstring(config, environment).value) == Some(UrlFields(config, environment).value)
  {
    BuildConnstringChecksTypeFirst(config, environment);
    ParseRenderUrl(Scheme, UrlFields(config, environment).value);
  }

  /** `_build_connstring` for the chosen environment. */
  function ConnstringBuilder(environment: string): Builder
  {
    (config: Value) => BuildConnstring(config, environment)
  }

  // ---------------------------------------------------------------------
  // Initialisation

  /** The connections `DBConnectionManager(environment, allowlist)` ends
      up with, or the error its construction raises. */
  function Initialized(environment: string, allowlist: seq<string>, loaded: Dict<string, Value>, env: Env, quote: Quote)
    : Result<Dict<string, Value>>
  {
    var resolved :- ResolveRegistry(loaded, env, quote);
    WithConnstrings(Kept(resolved, allowlist), ConnstringBuilder(environment))
  }

  /** `entry` is the registry entry `original` after resolution and the
      connection-string loop: its resolved configuration with the
      connection string built from it under `connstring`. */
  predicate Connstringed(entry: (string, Value), original: (string, Value), env: Env, quote: Quote, environment: string)
  {
    entry.0 == original.0 && HasConnstring(entry.1) && ResolvePasswords(original.1, env, quote).Ok? &&
    BuildConnstring(ResolvePasswords(original.1, env, quote).value, environment) == Ok(ConnstringOf(entry.1)) &&
    BuiltFrom(entry, original.0, ResolvePasswords(original.1, env, quote).value, ConnstringBuilder(environment))
  }

  /** A manager keeps exactly the connections it was asked for (all of
      them when none were named; unknown names are ignored), each with
      the connection string built from its own resolved configuration. */
  lemma InitializedConnections(environment: string, allowlist: seq<string>,
      loaded: Dict<string, Value>, env: Env, quote: Quote, name: string)
    requires forall i :: 0 <= i < |loaded| ==> WellWrapped(loaded[i].1)
    requires Initialized(environment, allowlist, loaded, env, quote).Ok?
    ensures HasConnstrings(Initialized(environment, allowlist, loaded, env, quote).value)
    ensures name in Keys(Initialized(environment, allowlist, loaded, env, quote).value) <==>
      name in Keys(loaded) && (allowlist == [] || name in allowlist)
    ensures var c := Initialized(environment, allowlist, loaded, env, quote).value;
      forall i :: 0 <= i < |c| ==> exists j :: 0 <= j < |loaded| && Connstringed(c[i], loaded[j], env, quote, environment)
  {
    var resolved := ResolveRegistry(loaded, env, quote).value;
    ResolvedRegistryShape(loaded, env, quote);
    var kept := Kept(resolved, allowlist);
    KeptEntries(resolved, allowlist, name);
    assert Initialized(environment, allowlist, loaded, env, quote) == WithConnstrings(kept, ConnstringBuilder(environment));
    WithConnstringsShape(kept, ConnstringBuilder(environment));
    var c := WithConnstrings(kept, ConnstringBuilder(environment)).value;
    forall i | 0 <= i < |c| ensures exists j :: 0 <= j < |loaded| && Connstringed(c[i], loaded[j], env, quote, environment) {
      var j :| 0 <= j < |resolved| && resolved[j] == kept[i];
      ConnstringedEntry(c[i], resolved[j], loaded[j], env, quote, environment);
    }
  }

  /** A registry with distinct names, as a dictionary read from a file
      has, gives a manager whose connections have distinct names. */
  lemma InitializedUniqueKeys(environment: string, allowlist: seq<string>,
      loaded: Dict<string, Value>, env: Env, quote: Quote)
    requires forall i :: 0 <= i < |loaded| ==> WellWrapped(loaded[i].1)
    requires UniqueKeys(loaded) && Initialized(environment, allowlist, loaded, env, quote).Ok?
    ensures UniqueKeys(Initialized(environment, allowlist, loaded, env, quote).value)
  {
    var resolved := ResolveRegistry(loaded, env, quote).value;
    ResolvedRegistryShape(loaded, env, quote);
    if allowlist != [] {
      FilteredUnique(resolved, allowlist);
    }
    WithConnstringsShape(Kept(resolved, allowlist), ConnstringBuilder(environment));
  }

  lemma ConnstringedEntry(entry: (string, Value), resolvedEntry: (string, Value), original: (string, Value),
                          env: Env, quote: Quote, environment: string)
    requires ResolvePasswords(original.1, env, quote).Ok?
    requires resolvedEntry == (original.0, ResolvePasswords(original.1, env, quote).value)
    requires entry.0 == resolvedEntry.0 && HasConnstring(entry.1)
    requires ConnstringBuilder(environment)(resolvedEntry.1) == Ok(ConnstringOf(entry.1))
    requires BuiltFrom(entry, resolvedEntry.0, resolvedEntry.1, ConnstringBuilder(environment))
    ensures Connstringed(entry, original, env, quote, environment)
  {
  }

  /** `DBConnectionManager(environment, allowlist)`, with the registry
      already read from disk: the manager, or the error its construction
      raises. */
  method NewManager(environment: string, allowlist: seq<string>, loaded: Dict<string, Value>, env: Env, quote: Quote)
    returns (r: Result<Manager>)
    ensures r.Err? <==> Initialized(environment, allowlist, loaded, env, quote).Err?
    ensures r.Err? ==> r.error == Initialized(environment, allowlist, loaded, env, quote).error
    ensures r.Ok? ==> fresh(r.value)
    ensures r.Ok? ==> r.value.connections == Initialized(environment, allowlist, loaded, env, quote).value
    ensures r.Ok? ==> HasConnstrings(r.value.connections) && r.value.engines == EnginesFor(r.value.connections)
    ensures r.Ok? ==> r.value.disposed == []
  {
    var resolved := GetConnections(loaded, env, quote);
    if resolved.Err? {
      return Err(resolved.error);
    }
    r := Finish(resolved.value, allowlist, ConnstringBuilder(environment));
  }
}
