/** The configuration manager (src/config_manager.py): the parsed settings
    tree, dotted-key lookup, validation of the required keys, path
    resolution, the `<module>.enabled` switches, loading with its error
    cases and the process-wide lazy instance. YAML parsing itself is not
    modelled: the loader receives the already-parsed document. */
module Config {
  import opened Wrappers
  import opened Strings
  import opened Files

  /** A parsed YAML value. */
  datatype Value =
    | Null
    | Bool(b: bool)
    | Int(i: int)
    | Str(s: string)
    | List(items: seq<Value>)
    | Dict(entries: map<string, Value>)

  /** Python truthiness of a parsed value. */
  predicate Truthy(v: Value) {
    match v
    case Null => false
    case Bool(b) => b
    case Int(i) => i != 0
    case Str(s) => s != ""
    case List(items) => items != []
    case Dict(entries) => entries != map[]
  }

  // ---------------------------------------------------------------------
  // get

  /** `for k in keys: value = value[k]`, with `None` standing for the
      `KeyError` or `TypeError` the source catches: only a mapping can be
      indexed by a key. */
  function Lookup(v: Value, keys: seq<string>): Option<Value>
    decreases |keys|
  {
    if |keys| == 0 then Some(v)
    else if v.Dict? && keys[0] in v.entries then Lookup(v.entries[keys[0]], keys[1..])
    else None
  }

  /** `get(key, default)` */
  function Get(config: Value, key: string, default: Value): Value {
    match Lookup(config, Split(key, '.'))
    case Some(v) => v
    case None => default
  }

  /** Following `a` and then `b` is following `a + b`. */
  lemma {:induction false} LookupConcat(v: Value, a: seq<string>, b: seq<string>)
    ensures Lookup(v, a + b) == (match Lookup(v, a) case Some(w) => Lookup(w, b) case None => None)
    decreases |a|
  {
    if |a| > 0 {
      assert (a + b)[0] == a[0] && (a + b)[1..] == a[1..] + b;
      if v.Dict? && a[0] in v.entries {
        LookupConcat(v.entries[a[0]], a[1..], b);
      }
    } else {
      assert a + b == b;
    }
  }

  /** Once traversal reaches something that is not a mapping, any further
      segment makes the lookup fail. */
  lemma LookupPastLeaf(v: Value, a: seq<string>, b: seq<string>)
    requires Lookup(v, a).Some? && !Lookup(v, a).value.Dict?
    requires |b| > 0
    ensures Lookup(v, a + b) == None
  {
    LookupConcat(v, a, b);
  }

  /** A tree holding `leaf` under the nested keys `keys` and nothing else. */
  function Nest(keys: seq<string>, leaf: Value): Value
    decreases |keys|
  {
    if |keys| == 0 then leaf else Dict(map[keys[0] := Nest(keys[1..], leaf)])
  }

  /** A dotted key is read segment by segment, one mapping per segment:
      `get` on "a.b.c" is the value reached through `a`, `b`, `c`, or the
      default when a segment is missing or the traversal meets a
      non-mapping. */
  lemma GetFollowsSegments(config: Value, keys: seq<string>, default: Value)
    requires |keys| > 0
    requires forall k :: 0 <= k < |keys| ==> '.' !in keys[k]
    ensures Get(config, Join(keys, "."), default)
      == (match Lookup(config, keys) case Some(v) => v case None => default)
  {
    JoinSplit(keys, '.');
  }

  /** `get("a.b.c", default)` for a key given by its segments. */
  function Setting(config: Value, keys: seq<string>, default: Value): Value {
    match Lookup(config, keys)
    case Some(v) => v
    case None => default
  }

  /** Reading a setting by its segments is `get` on the dotted key. */
  lemma SettingIsGet(config: Value, keys: seq<string>, default: Value)
    requires |keys| > 0 && forall k :: 0 <= k < |keys| ==> '.' !in keys[k]
    ensures Setting(config, keys, default) == Get(config, Join(keys, "."), default)
  {
    GetFollowsSegments(config, keys, default);
  }

  /** What was nested under a dotted key is what `get` gives back. */
  lemma {:induction false} GetNest(keys: seq<string>, leaf: Value, default: Value)
    requires |keys| > 0
    requires forall k :: 0 <= k < |keys| ==> '.' !in keys[k]
    ensures Get(Nest(keys, leaf), Join(keys, "."), default) == leaf
  {
    NestLookup(keys, leaf);
    GetFollowsSegments(Nest(keys, leaf), keys, default);
  }

  lemma {:induction false} NestLookup(keys: seq<string>, leaf: Value)
    ensures Lookup(Nest(keys, leaf), keys) == Some(leaf)
    decreases |keys|
  {
    if |keys| > 0 {
      NestLookup(keys[1..], leaf);
    }
  }

  /** A key whose first segment is absent, or a document that is not a
      mapping, gives the default. */
  lemma GetMissing(config: Value, key: string, default: Value)
    requires !config.Dict? || Split(key, '.')[0] !in config.entries
    ensures Get(config, key, default) == default
  {
  }

  // ---------------------------------------------------------------------
  // _validate

  /** The keys the application cannot run without, in the order checked. */
  const Required: seq<string> := ["openrouter.api_key", "models.transcription", "models.screen_analysis", "models.summary"]
  const ApiKeyName: string := "openrouter.api_key"
  /** The placeholder shipped in the example settings. */
  const Placeholder: string := "YOUR_OPENROUTER_API_KEY"

  /** The error line one required key contributes, if any. */
  function KeyProblem(config: Value, key: string): seq<string> {
    var v := Get(config, key, Null);
    if v == Null || v == Str("") then ["Configuração obrigatória ausente: " + key]
    else if key == ApiKeyName && v == Str(Placeholder) then ["Configure sua API key do OpenRouter em settings.yaml"]
    else []
  }

  /** The error lines for `keys`, in list order. */
  function Problems(config: Value, keys: seq<string>): seq<string>
    decreases |keys|
  {
    if |keys| == 0 then [] else Problems(config, keys[..|keys| - 1]) + KeyProblem(config, keys[|keys| - 1])
  }

  lemma ProblemsStep(config: Value, keys: seq<string>, i: nat)
    requires i < |keys|
    ensures Problems(config, keys[..i + 1]) == Problems(config, keys[..i]) + KeyProblem(config, keys[i])
  {
    assert keys[..i + 1][..i] == keys[..i];
  }

  /** A required key is acceptable when it is present, not null, not the
      empty string and, for the API key, not the placeholder. */
  predicate Acceptable(config: Value, key: string) {
    match Lookup(config, Split(key, '.'))
    case None => false
    case Some(v) => v != Null && v != Str("") && (key == ApiKeyName ==> v != Str(Placeholder))
  }

  /** There are no error lines exactly when every key is acceptable, and
      never more lines than keys. */
  lemma {:induction false} ProblemsIff(config: Value, keys: seq<string>)
    ensures Problems(config, keys) == [] <==> forall k :: 0 <= k < |keys| ==> Acceptable(config, keys[k])
    ensures |Problems(config, keys)| <= |keys|
    decreases |keys|
  {
    if |keys| > 0 {
      var init, last := keys[..|keys| - 1], keys[|keys| - 1];
      ProblemsIff(config, init);
      ProblemsLength(config, keys);
      KeyProblemIff(config, last);
      assert Problems(config, keys) == Problems(config, init) + KeyProblem(config, last);
      assert (forall k :: 0 <= k < |keys| ==> Acceptable(config, keys[k]))
        <==> (forall k :: 0 <= k < |init| ==> Acceptable(config, init[k])) && Acceptable(config, last) by {
        forall k | 0 <= k < |init| ensures init[k] == keys[k] { }
      }
    }
  }

  lemma {:induction false} ProblemsLength(config: Value, keys: seq<string>)
    ensures |Problems(config, keys)| <= |keys|
    decreases |keys|
  {
    if |keys| > 0 {
      ProblemsLength(config, keys[..|keys| - 1]);
      KeyProblemIff(config, keys[|keys| - 1]);
    }
  }

  /** One key gives at most one line, and none exactly when it is acceptable. */
  lemma KeyProblemIff(config: Value, key: string)
    ensures KeyProblem(config, key) == [] <==> Acceptable(config, key)
    ensures |KeyProblem(config, key)| <= 1
  {
  }

  /** The `ConfigError` message `_validate` raises, or none. */
  function ValidationError(config: Value): Option<string> {
    var lines := Problems(config, Required);
    if lines == [] then None else Some(Join(lines, "\n"))
  }

  /** Validation passes exactly when the four required keys are acceptable. */
  lemma ValidationErrorIff(config: Value)
    ensures ValidationError(config) == None <==> forall k :: 0 <= k < |Required| ==> Acceptable(config, Required[k])
  {
    ProblemsIff(config, Required);
  }

  /** The lines for a prefix of the keys open the lines for all of them. */
  lemma {:induction false} ProblemsPrefix(config: Value, keys: seq<string>, n: nat)
    requires n <= |keys|
    ensures Problems(config, keys[..n]) <= Problems(config, keys)
    decreases |keys| - n
  {
    if n < |keys| {
      ProblemsStep(config, keys, n);
      ProblemsPrefix(config, keys, n + 1);
    } else {
      assert keys[..n] == keys;
    }
  }

  /** A placeholder API key is reported with its own line, and that line
      opens the error message: the keys after it are still checked. Stated
      for any key list that starts with the API key, as `Required` does. */
  lemma PlaceholderReported(config: Value, keys: seq<string>)
    requires |keys| > 0 && keys[0] == ApiKeyName
    requires Get(config, keys[0], Null) == Str(Placeholder)
    ensures |Problems(config, keys)| >= 1 && Problems(config, keys)[0] == "Configure sua API key do OpenRouter em settings.yaml"
  {
    ProblemsStep(config, keys, 0);
    ProblemsPrefix(config, keys, 1);
    assert keys[..0] == [];
  }

  // ---------------------------------------------------------------------
  // get_path, is_enabled

  /** `Path(s)` as a string: the empty path is ".". */
  function PathOf(s: string): string {
    if s == "" then "." else s
  }

  predicate IsLetter(c: char) { 'a' <= c <= 'z' || 'A' <= c <= 'Z' }

  /** A Windows path is absolute when it has a drive and a root. */
  predicate IsAbsolute(p: string) {
    |p| >= 3 && IsLetter(p[0]) && p[1] == ':' && (p[2] == '\\' || p[2] == '/')
  }

  /** `get_path(key, default)`: a falsy value gives `Path(default)` as it
      is; a string is used as it is when absolute and under the project
      root otherwise; any other value makes `Path` raise. */
  function GetPath(config: Value, root: string, key: string, default: string): (r: Result<string>)
    ensures r.Ok? && r.value != PathOf(default) ==> Truthy(Get(config, key, Str(default)))
  {
    var v := Get(config, key, Str(default));
    if !Truthy(v) then Ok(PathOf(default))
    else if v.Str? then Ok(if IsAbsolute(v.s) then v.s else Under(root, v.s))
    else Failure("expected str, bytes or os.PathLike object, not " + TypeName(v))
  }

  function TypeName(v: Value): string {
    match v
    case Null => "NoneType"
    case Bool(_) => "bool"
    case Int(_) => "int"
    case Str(_) => "str"
    case List(_) => "list"
    case Dict(_) => "dict"
  }

  /** The three outcomes of `get_path` on a key the settings define as a
      string: empty gives the default unresolved, relative is placed under
      the root, absolute is kept. A missing key gives the default too. */
  lemma GetPathCases(config: Value, root: string, key: string, default: string)
    ensures Lookup(config, Split(key, '.')) == None ==>
      GetPath(config, root, key, default) ==
        Ok(if default == "" then "." else if IsAbsolute(default) then default else root + "/" + default)
    ensures Lookup(config, Split(key, '.')) == Some(Str("")) ==>
      GetPath(config, root, key, default) == Ok(PathOf(default))
    ensures forall s :: Lookup(config, Split(key, '.')) == Some(Str(s)) && s != "" && !IsAbsolute(s) ==>
      GetPath(config, root, key, default) == Ok(root + "/" + s)
    ensures forall s :: Lookup(config, Split(key, '.')) == Some(Str(s)) && IsAbsolute(s) ==>
      GetPath(config, root, key, default) == Ok(s)
  {
  }

  /** An explicitly empty setting and a missing one should both give the
      default under the project root (the source documents the result as an
      absolute path). As written, for a relative default such as
      "config/prompt.txt", the empty setting gives the bare relative default
      while the missing one gives it under the root. */
  lemma GetPathEmptyUnresolved(config: Value, root: string, key: string, default: string)
    requires default != "" && !IsAbsolute(default)
    requires Lookup(config, Split(key, '.')) == Some(Str(""))
    ensures GetPath(config, root, key, default) == Ok(default)
    ensures GetPath(Null, root, key, default) == Ok(root + "/" + default)
  {
  }

  /** `root / p`, or `p` itself when it is absolute. */
  function Resolve(root: string, p: string): string {
    if IsAbsolute(p) then p else if p == "" then root else Under(root, p)
  }

  /** `get_path` with the falsy case resolved like every other: the
      default, when it is used, is placed under the root as well. */
  function GetPathResolved(config: Value, root: string, key: string, default: string): (r: Result<string>)
    ensures r.Failure? <==> GetPath(config, root, key, default).Failure?
  {
    var v := Get(config, key, Str(default));
    if !Truthy(v) then Ok(Resolve(root, default))
    else if v.Str? then Ok(Resolve(root, v.s))
    else Failure("expected str, bytes or os.PathLike object, not " + TypeName(v))
  }

  /** With an absolute project root every resolved path is absolute, and an
      empty setting resolves exactly like a missing one. */
  lemma GetPathResolvedAbsolute(config: Value, root: string, key: string, default: string)
    requires IsAbsolute(root)
    ensures GetPathResolved(config, root, key, default).Ok? ==>
      IsAbsolute(GetPathResolved(config, root, key, default).value)
    ensures Lookup(config, Split(key, '.')) == Some(Str("")) ==>
      GetPathResolved(config, root, key, default) == GetPathResolved(Null, root, key, default)
  {
  }

  /** `is_enabled(module)`: the value of `<module>.enabled`, `False` when
      missing. */
  function IsEnabled(config: Value, section: string): Value {
    Get(config, section + ".enabled", Bool(false))
  }

  /** The switch is read from the module's own section and is `False`
      whenever the section or its `enabled` entry is missing. */
  lemma IsEnabledReadsSection(config: Value, section: string)
    requires '.' !in section
    ensures IsEnabled(config, section) ==
      if config.Dict? && section in config.entries && config.entries[section].Dict?
         && "enabled" in config.entries[section].entries
      then config.entries[section].entries["enabled"]
      else Bool(false)
  {
    var keys := [section, "enabled"];
    assert '.' !in keys[1];
    GetFollowsSegments(config, keys, Bool(false));
    assert keys[1..] == ["enabled"];
    assert Join(keys, ".") == section + ".enabled";
    if config.Dict? && section in config.entries {
      var inner := config.entries[section];
      assert Lookup(config, keys) == Lookup(inner, ["enabled"]);
    }
  }

  // ---------------------------------------------------------------------
  // _load, construction, reload, get_config

  /** What reading the settings file yields: a parsed document, or the
      parser's error message. */
  datatype Document = Parsed(tree: Value) | YamlError(message: string)

  /** `_load`: a missing file and a parse error raise `ConfigError`; an
      empty document becomes an empty mapping. */
  function Load(path: string, found: bool, doc: Document): (r: Result<Value>)
    ensures r.Ok? <==> found && doc.Parsed?
    ensures r.Ok? ==> Truthy(r.value) || r.value == Dict(map[])
    ensures r.Ok? && Truthy(doc.tree) ==> r.value == doc.tree
    ensures r.Ok? && !Truthy(doc.tree) ==> r.value == Dict(map[])
    ensures !found ==> r == Failure("Arquivo de configuração não encontrado: " + path)
    ensures found && doc.YamlError? ==> r == Failure("Erro ao parsear YAML: " + doc.message)
  {
    if !found then Failure("Arquivo de configuração não encontrado: " + path)
    else match doc
      case YamlError(e) => Failure("Erro ao parsear YAML: " + e)
      case Parsed(tree) => Ok(if Truthy(tree) then tree else Dict(map[]))
  }

  /** The settings file used when no path is given. */
  function DefaultPath(root: string): string {
    Under(Under(root, "config"), "settings.yaml")
  }

  function ChosenPath(root: string, configPath: Option<string>): string {
    match configPath
    case Some(p) => p
    case None => DefaultPath(root)
  }

  /** What constructing the manager yields: load, then validate. */
  function Open(root: string, configPath: Option<string>, found: bool, doc: Document): (r: Result<Value>)
    ensures r.Ok? ==> ValidationError(r.value) == None && found && doc.Parsed?
    ensures var loaded := Load(ChosenPath(root, configPath), found, doc);
      (r.Ok? <==> loaded.Ok? && ValidationError(loaded.value) == None)
      && (r.Ok? ==> r == loaded)
      && (loaded.Failure? ==> r == loaded)
      && (loaded.Ok? && ValidationError(loaded.value).Some? ==> r == Failure(ValidationError(loaded.value).value))
  {
    var loaded := Load(ChosenPath(root, configPath), found, doc);
    if loaded.Failure? then loaded
    else match ValidationError(loaded.value)
      case Some(msg) => Failure(msg)
      case None => loaded
  }

  /** `ConfigManager` */
  class ConfigManager {
    const root: string
    const configPath: string
    var config: Value

    constructor (root: string, configPath: string, config: Value)
      ensures this.root == root && this.configPath == configPath && this.config == config
    {
      this.root := root;
      this.configPath := configPath;
      this.config := config;
    }

    /** `_validate`: the source's loop over the required keys, collecting
        one line per offending key. */
    method Validate() returns (error: Option<string>)
      ensures error == ValidationError(config)
    {
      var lines: seq<string> := [];
      for i := 0 to |Required|
        invariant lines == Problems(config, Required[..i])
      {
        var key := Required[i];
        ghost var before := lines;
        var v := Get(config, key, Null);
        if v == Null || v == Str("") {
          lines := lines + ["Configuração obrigatória ausente: " + key];
        } else if key == ApiKeyName && v == Str(Placeholder) {
          lines := lines + ["Configure sua API key do OpenRouter em settings.yaml"];
        }
        assert lines == before + KeyProblem(config, key);
        ProblemsStep(config, Required, i);
      }
      assert Required[..|Required|] == Required;
      if lines == [] {
        error := None;
      } else {
        error := Some(Join(lines, "\n"));
      }
    }

    /** `reload`: a load failure leaves the settings as they were; a
        document that loads replaces them even when it then fails
        validation. */
    method Reload(found: bool, doc: Document) returns (error: Option<string>)
      modifies this
      ensures var loaded := Load(configPath, found, doc);
        (loaded.Failure? ==> config == old(config) && error == Some(loaded.error))
        && (loaded.Ok? ==> config == loaded.value && error == ValidationError(loaded.value))
    {
      var loaded := Load(configPath, found, doc);
      if loaded.Failure? {
        error := Some(loaded.error);
      } else {
        config := loaded.value;
        error := Validate();
      }
    }
  }

  /** The module-level singleton behind `get_config`. */
  class Registry {
    var instance: Option<ConfigManager>

    constructor ()
      ensures instance == None
    {
      instance := None;
    }

    /** `get_config(config_path)`: the first successful call builds the
        manager; every later call returns that same manager and ignores its
        arguments. A construction that raises leaves no instance. */
    method GetConfig(root: string, configPath: Option<string>, found: bool, doc: Document)
      returns (r: Result<ConfigManager>)
      modifies this
      ensures old(instance).Some? ==> r == Ok(old(instance).value) && instance == old(instance)
      ensures old(instance).None? ==>
        var outcome := Open(root, configPath, found, doc);
        (outcome.Failure? ==> r == Failure(outcome.error) && instance == None)
        && (outcome.Ok? ==>
              r.Ok? && fresh(r.value) && instance == Some(r.value)
              && r.value.config == outcome.value && r.value.root == root
              && r.value.configPath == ChosenPath(root, configPath))
    {
      if instance.Some? {
        return Ok(instance.value);
      }
      var outcome := Open(root, configPath, found, doc);
      if outcome.Failure? {
        return Failure(outcome.error);
      }
      var m := new ConfigManager(root, ChosenPath(root, configPath), outcome.value);
      instance := Some(m);
      r := Ok(m);
    }
  }
}
