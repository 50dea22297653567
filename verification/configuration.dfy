/**
  The simulation's configuration: a parsed YAML document with dotted-path
  look-ups, named top-level sections, and a process-wide cached instance.
  Reading and parsing the file are not modelled: the file system is a map from
  path to the parsed document, `None` standing for malformed YAML.
*/
module Configuration {
  import opened Wrappers
  import opened Json

  /** `key.split(".")`: the pieces between dots, empty ones included. */
  function Split(s: string): (parts: seq<string>)
    ensures |parts| >= 1
    ensures forall i :: 0 <= i < |parts| ==> '.' !in parts[i]
  {
    if s == [] then [""]
    else
      var rest := Split(s[1..]);
      if s[0] == '.' then [""] + rest else [[s[0]] + rest[0]] + rest[1..]
  }

  /** `".".join(parts)`. */
  function Join(parts: seq<string>): string
  {
    if parts == [] then "" else if |parts| == 1 then parts[0] else parts[0] + "." + Join(parts[1..])
  }

  /** Splitting on dots and joining with dots gives the key back. */
  lemma {:induction false} JoinSplit(s: string)
    ensures Join(Split(s)) == s
  {
    if s != [] {
      JoinSplit(s[1..]);
      var rest := Split(s[1..]);
      if s[0] == '.' {
        assert Join([""] + rest) == "" + "." + Join(rest);
      } else {
        var parts := [[s[0]] + rest[0]] + rest[1..];
        assert parts[1..] == rest[1..];
        if |rest| == 1 {
          assert Join(parts) == [s[0]] + rest[0];
        } else {
          assert Join(rest) == rest[0] + "." + Join(rest[1..]);
          assert Join(parts) == ([s[0]] + rest[0]) + "." + Join(rest[1..]);
        }
      }
    }
  }

  /** A key without dots is a single path component. */
  lemma {:induction false} SplitNoDot(s: string)
    requires '.' !in s
    ensures Split(s) == [s]
  {
    if s != [] {
      assert s[0] in s;
      assert forall c :: c in s[1..] ==> c in s;
      SplitNoDot(s[1..]);
      assert [s[0]] + s[1..] == s;
    }
  }

  /** A dot-free first component followed by a dot starts the split. */
  lemma {:induction false} SplitFirst(a: string, b: string)
    requires '.' !in a
    ensures Split(a + "." + b) == [a] + Split(b)
  {
    if a == [] {
      assert a + "." + b == ['.'] + b;
      assert (['.'] + b)[1..] == b;
    } else {
      assert a[0] in a;
      assert forall c :: c in a[1..] ==> c in a;
      SplitFirst(a[1..], b);
      assert (a + "." + b)[1..] == a[1..] + "." + b;
      assert [a[0]] + a[1..] == a;
    }
  }

  /**
    The walk of `Config.get`: one map level per component; a value that is not
    a map, a missing key or a stored `null` ends the walk with nothing.
  */
  function Resolve(v: Value, keys: seq<string>): Option<Value>
  {
    if keys == [] then Some(v)
    else
      match v
      case Dict(m) => if keys[0] in m && m[keys[0]] != Null then Resolve(m[keys[0]], keys[1..]) else None
      case _ => None
  }

  /** A walk along `ks1 + ks2` is the walk along `ks1` continued along `ks2`. */
  lemma {:induction false} ResolveAppend(v: Value, ks1: seq<string>, ks2: seq<string>)
    ensures Resolve(v, ks1 + ks2) == match Resolve(v, ks1) case Some(w) => Resolve(w, ks2) case None => None
  {
    if ks1 != [] {
      assert (ks1 + ks2)[0] == ks1[0];
      assert (ks1 + ks2)[1..] == ks1[1..] + ks2;
      if v.Dict? && ks1[0] in v.entries && v.entries[ks1[0]] != Null {
        ResolveAppend(v.entries[ks1[0]], ks1[1..], ks2);
      }
    } else {
      assert ks1 + ks2 == ks2;
    }
  }

  /** A walk never yields `null`: every step and the end point are checked against it. */
  lemma {:induction false} ResolveNeverNull(v: Value, keys: seq<string>)
    requires keys != []
    ensures Resolve(v, keys) != Some(Null)
  {
    if v.Dict? && keys[0] in v.entries && v.entries[keys[0]] != Null && |keys| > 1 {
      ResolveNeverNull(v.entries[keys[0]], keys[1..]);
    }
  }

  /** What a top-level section property names. */
  datatype Section =
    | Simulation | Suitability | Learning | YieldParams | Finance
    | Visualization | DataPaths | Analysis | LoggingConfig | Experiment

  function SectionKey(s: Section): string
  {
    match s
    case Simulation => "simulation"
    case Suitability => "suitability"
    case Learning => "learning"
    case YieldParams => "yield"
    case Finance => "finance"
    case Visualization => "visualization"
    case DataPaths => "data"
    case Analysis => "analysis"
    case LoggingConfig => "logging"
    case Experiment => "experiment"
  }

  /** Distinct section properties read distinct top-level keys, none of them dotted. */
  lemma SectionKeysDistinct(s: Section, t: Section)
    ensures SectionKey(s) == SectionKey(t) ==> s == t
    ensures '.' !in SectionKey(s)
  {
  }

  datatype ConfigError =
    | FileNotFound(path: string)
    | MalformedYaml(path: string)
    | NotAMapping        // the document is not a map, so `.get` does not exist
    | KeyNotFound(key: string)

  class Config {
    const configPath: string
    const data: Value

    constructor(configPath: string, data: Value)
      ensures this.configPath == configPath && this.data == data
    {
      this.configPath := configPath;
      this.data := data;
    }

    /** `get`: the value at the dotted path, or `default` when the walk ends early. */
    method Get(key: string, default: Value) returns (r: Value)
      ensures r == Resolve(data, Split(key)).GetOr(default)
    {
      var keys := Split(key);
      var value := data;
      var i := 0;
      while i < |keys|
        invariant 0 <= i <= |keys|
        invariant Resolve(data, keys) == Resolve(value, keys[i..])
      {
        if value.Dict? {
          var k := keys[i];
          if k !in value.entries || value.entries[k] == Null {
            return default;
          }
          value := value.entries[k];
        } else {
          return default;
        }
        i := i + 1;
      }
      return value;
    }

    /** `config[key]`: the stored top-level value, failing when it is absent. */
    function Item(key: string): (r: Result<Value, ConfigError>)
      ensures r.Ok? <==> data.Dict? && key in data.entries
      ensures r.Ok? ==> r.value == data.entries[key]
      ensures !data.Dict? ==> r == Err(NotAMapping)
    {
      if !data.Dict? then Err(NotAMapping)
      else if key in data.entries then Ok(data.entries[key])
      else Err(KeyNotFound(key))
    }

    /** A section property: `data.get(name, {})`, where a stored `null` is returned as is. */
    function SectionValue(s: Section): (r: Result<Value, ConfigError>)
      ensures r.Ok? <==> data.Dict?
    {
      if !data.Dict? then Err(NotAMapping)
      else if SectionKey(s) in data.entries then Ok(data.entries[SectionKey(s)])
      else Ok(Dict(map[]))
    }

    /**
      A section property agrees with `get(name, {})` except for a stored `null`,
      which the property returns and `get` replaces by the default.
    */
    lemma SectionMatchesGet(s: Section)
      requires data.Dict?
      ensures SectionKey(s) in data.entries && data.entries[SectionKey(s)] == Null ==>
        SectionValue(s) == Ok(Null) && Resolve(data, Split(SectionKey(s))).GetOr(Dict(map[])) == Dict(map[])
      ensures !(SectionKey(s) in data.entries && data.entries[SectionKey(s)] == Null) ==>
        SectionValue(s) == Ok(Resolve(data, Split(SectionKey(s))).GetOr(Dict(map[])))
    {
      SectionKeysDistinct(s, s);
      TopLevelGet(data, SectionKey(s), Dict(map[]));
    }
  }

  /** `Config(config_path)`: the file must exist and parse. */
  method OpenConfig(path: string, files: map<string, Option<Value>>) returns (r: Result<Config, ConfigError>)
    ensures path !in files ==> r == Err(FileNotFound(path))
    ensures path in files && files[path].None? ==> r == Err(MalformedYaml(path))
    ensures path in files && files[path].Some? ==>
      r.Ok? && fresh(r.value) && r.value.configPath == path && r.value.data == files[path].value
  {
    if path !in files {
      return Err(FileNotFound(path));
    }
    if files[path].None? {
      return Err(MalformedYaml(path));
    }
    var c := new Config(path, files[path].value);
    r := Ok(c);
  }

  const DEFAULT_PATH: string := "config.yaml"

  /** The module-global `_config_instance` and the two functions that fill it. */
  class ConfigCache {
    var instance: Config?

    constructor()
      ensures instance == null
    {
      instance := null;
    }

    /**
      `load_config`: the first successful call caches its config; every later
      call returns that same instance whatever path it is given. A failed first
      load leaves the cache empty.
    */
    method LoadConfig(path: string, files: map<string, Option<Value>>) returns (r: Result<Config, ConfigError>)
      modifies this
      ensures old(instance) != null ==> r.Ok? && r.value == old(instance) && instance == old(instance)
      ensures old(instance) == null && path !in files ==> r == Err(FileNotFound(path)) && instance == null
      ensures old(instance) == null && path in files && files[path].None? ==> r == Err(MalformedYaml(path)) && instance == null
      ensures old(instance) == null && path in files && files[path].Some? ==>
        r.Ok? && fresh(r.value) && instance == r.value && r.value.configPath == path && r.value.data == files[path].value
    {
      if instance == null {
        var loaded := OpenConfig(path, files);
        if loaded.Err? {
          return loaded;
        }
        instance := loaded.value;
      }
      r := Ok(instance);
    }

    /** `get_config`: the cached config, loading the default path when there is none. */
    method GetConfig(files: map<string, Option<Value>>) returns (r: Result<Config, ConfigError>)
      modifies this
      ensures old(instance) != null ==> r.Ok? && r.value == old(instance) && instance == old(instance)
      ensures old(instance) == null && DEFAULT_PATH !in files ==> r == Err(FileNotFound(DEFAULT_PATH)) && instance == null
      ensures old(instance) == null && DEFAULT_PATH in files && files[DEFAULT_PATH].None? ==>
        r == Err(MalformedYaml(DEFAULT_PATH)) && instance == null
      ensures old(instance) == null && DEFAULT_PATH in files && files[DEFAULT_PATH].Some? ==>
        r.Ok? && fresh(r.value) && instance == r.value && r.value.configPath == DEFAULT_PATH &&
        r.value.data == files[DEFAULT_PATH].value
    {
      if instance == null {
        var loaded := OpenConfig(DEFAULT_PATH, files);
        if loaded.Err? {
          return loaded;
        }
        instance := loaded.value;
      }
      r := Ok(instance);
    }
  }

  /** The two-component key `a.b`, both parts dot-free, reads `data[a][b]`. */
  lemma TwoLevelGet(data: Value, a: string, b: string, default: Value)
    requires '.' !in a && '.' !in b
    ensures Resolve(data, Split(a + "." + b)).GetOr(default) ==
      if data.Dict? && a in data.entries && data.entries[a].Dict? && b in data.entries[a].entries &&
         data.entries[a].entries[b] != Null
      then data.entries[a].entries[b] else default
  {
    SplitFirst(a, b);
    SplitNoDot(b);
    assert Split(a + "." + b) == [a, b];
    var ks := [a, b];
    assert ks[0] == a && ks[1..] == [b];
    if data.Dict? && a in data.entries && data.entries[a] != Null {
      var v := data.entries[a];
      assert Resolve(data, ks) == Resolve(v, [b]);
      if v.Dict? && b in v.entries && v.entries[b] != Null {
        assert [b][1..] == [];
        assert Resolve(v, [b]) == Some(v.entries[b]);
      }
    }
  }

  /**
    The documented examples: `get("simulation.n_agents")` returns 100 from a
    config holding it, and `get("nonexistent.key", default=42)` returns 42.
  */
  lemma DocumentedExamples(data: Value)
    requires data == Dict(map["simulation" := Dict(map["n_agents" := Int(100)])])
    ensures Resolve(data, Split("simulation" + "." + "n_agents")).GetOr(Null) == Int(100)
    ensures Resolve(data, Split("nonexistent" + "." + "key")).GetOr(Int(42)) == Int(42)
  {
    TwoLevelGet(data, "simulation", "n_agents", Null);
    TwoLevelGet(data, "nonexistent", "key", Int(42));
  }

  /** A dot-free key reads one top-level entry, `null` and absence giving the default. */
  lemma TopLevelGet(data: Value, k: string, default: Value)
    requires '.' !in k
    ensures Resolve(data, Split(k)).GetOr(default) ==
      if data.Dict? && k in data.entries && data.entries[k] != Null then data.entries[k] else default
  {
    SplitNoDot(k);
  }

  /**
    Any stored value other than `null` is returned as is, falsy ones (0, false,
    "", empty list or map) included; a stored `null` gives the default.
  */
  lemma StoredValueReturned(m: map<string, Value>, k: string, v: Value, default: Value)
    requires '.' !in k
    ensures v != Null ==> Resolve(Dict(m[k := v]), Split(k)).GetOr(default) == v
    ensures v == Null ==> Resolve(Dict(m[k := v]), Split(k)).GetOr(default) == default
  {
    SplitNoDot(k);
  }

  /** Reaching a value that is not a map before the path ends gives the default. */
  lemma NonMappingGivesDefault(v: Value, keys: seq<string>, default: Value)
    requires !v.Dict? && keys != []
    ensures Resolve(v, keys).GetOr(default) == default
  {
  }
}
