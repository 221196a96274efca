/**
 * Configuration management: environment overrides written into the parsed
 * YAML configuration, the typed configuration read from it with its
 * defaults, the logical validation of a typed configuration, and the API-key
 * lookup. The environment is a map from variable names to values; Python's
 * `int()` and `float()` on environment strings are supplied by the caller.
 */
module ConfigManager {
  import opened Wrappers
  import opened PyStr
  import opened YamlParser

  // ---------------------------------------------------------------------
  // The typed configuration

  datatype LlmSettings = LlmSettings(
    provider: string,
    model: Option<string>,
    temperature: real,
    maxTokens: int,
    retryAttempts: int,
    retryDelay: real)

  datatype RemNoteSettings = RemNoteSettings(defaultFolder: string, includeHierarchy: bool)

  datatype CardsPerConcept = CardsPerConcept(min: int, max: int)

  datatype CardTypeSwitches = CardTypeSwitches(concept: bool, basic: bool, cloze: bool, descriptor: bool)

  datatype DifficultyShares = DifficultyShares(beginner: real, intermediate: real, advanced: real)

  datatype GenerationSettings = GenerationSettings(
    cardsPerConcept: CardsPerConcept,
    cardTypes: CardTypeSwitches,
    includeExamples: bool,
    difficulty: DifficultyShares)

  datatype OutputSettings = OutputSettings(format: string, includeStats: bool, includeMetadata: bool)

  datatype AppConfig = AppConfig(
    llm: LlmSettings,
    remnote: RemNoteSettings,
    generation: GenerationSettings,
    output: OutputSettings,
    systemPrompt: string)

  const DefaultSystemPrompt: string :=
    "You are an expert in creating spaced repetition flashcards.\nGenerate cards that are atomic, clear, and testable.\nFocus on understanding over memorization."

  /** The configuration an empty mapping yields (an empty file loads as None, which TypedConfig refuses). */
  const DefaultConfig: AppConfig := AppConfig(
    LlmSettings("anthropic", None, 0.3, 2000, 3, 2.0),
    RemNoteSettings("ML System Design", true),
    GenerationSettings(CardsPerConcept(3, 5), CardTypeSwitches(true, true, true, true), true,
                       DifficultyShares(0.3, 0.5, 0.2)),
    OutputSettings("remnote_text", true, false),
    DefaultSystemPrompt)

  // ---------------------------------------------------------------------
  // Paths into the parsed configuration

  /** The value at a path of keys, if every step is a mapping holding the key. */
  function GetPath(y: Yaml, path: seq<string>): Option<Yaml>
    decreases |path|
  {
    if path == [] then Some(y)
    else if y.YMap? && path[0] in y.entries then GetPath(y.entries[path[0]], path[1..])
    else None
  }

  /** Two paths that part at some key: neither leads into the other. */
  predicate Apart(p: seq<string>, q: seq<string>)
    decreases |p|
  {
    p != [] && q != [] && (p[0] != q[0] || Apart(p[1..], q[1..]))
  }

  const NotAMapping := "TypeError: configuration entry is not a mapping"

  /**
   * The write of `_apply_env_overrides`: walk the keys before the last,
   * creating a missing mapping at each, then convert the value and store it
   * under the last key. A step into something other than a mapping fails, and
   * a failed conversion fails before the final store.
   */
  function SetPath(y: Yaml, path: seq<string>, v: Result<Yaml>): (r: Result<Yaml>)
    requires path != []
    ensures r.Success? ==> y.YMap? && r.value.YMap?
    ensures r.Success? ==> r.value.entries.Keys == y.entries.Keys + {path[0]}
    ensures r.Success? ==> forall k :: k in y.entries && k != path[0] ==> r.value.entries[k] == y.entries[k]
    decreases |path|
  {
    if |path| == 1 then
      if v.Failure? then Failure(v.error)
      else if !y.YMap? then Failure(NotAMapping)
      else Success(YMap(y.entries[path[0] := v.value]))
    else if !y.YMap? then Failure(NotAMapping)
    else
      var inner := if path[0] in y.entries then y.entries[path[0]] else YMap(map[]);
      match SetPath(inner, path[1..], v)
      case Failure(e) => Failure(e)
      case Success(w) => Success(YMap(y.entries[path[0] := w]))
  }

  /** After a write the path holds the converted value. */
  lemma {:induction false} SetThenGet(y: Yaml, path: seq<string>, v: Result<Yaml>)
    requires path != [] && SetPath(y, path, v).Success?
    ensures v.Success? && GetPath(SetPath(y, path, v).value, path) == Some(v.value)
    decreases |path|
  {
    if |path| > 1 {
      var inner := if path[0] in y.entries then y.entries[path[0]] else YMap(map[]);
      SetThenGet(inner, path[1..], v);
    }
  }

  /** A write leaves every path apart from its own as it was. */
  lemma {:induction false} SetKeepsApart(y: Yaml, path: seq<string>, v: Result<Yaml>, q: seq<string>)
    requires path != [] && SetPath(y, path, v).Success? && Apart(path, q)
    ensures GetPath(SetPath(y, path, v).value, q) == GetPath(y, q)
    decreases |path|
  {
    var w := SetPath(y, path, v).value;
    if path[0] != q[0] {
      assert q[0] in w.entries <==> q[0] in y.entries;
    } else {
      assert |path| > 1 && |q| > 1;
      var inner := if path[0] in y.entries then y.entries[path[0]] else YMap(map[]);
      SetKeepsApart(inner, path[1..], v, q[1..]);
      assert GetPath(inner, q[1..]) == GetPath(y, q) by {
        if path[0] !in y.entries {
          assert GetPath(YMap(map[]), q[1..]) == None;
        }
      }
    }
  }

  // ---------------------------------------------------------------------
  // Environment overrides

  /** Python's `int()` and `float()` on a string; `None` where they raise. */
  datatype Parsers = Parsers(toInt: string -> Option<int>, toFloat: string -> Option<real>)

  /** `env_mappings`, in order; the API-key variables map to no path. */
  const EnvMappings: seq<(string, seq<string>)> := [
    ("REMNOTE_LLM_PROVIDER", ["llm", "provider"]),
    ("REMNOTE_LLM_MODEL", ["llm", "model"]),
    ("REMNOTE_LLM_TEMPERATURE", ["llm", "temperature"]),
    ("REMNOTE_LLM_MAX_TOKENS", ["llm", "max_tokens"]),
    ("REMNOTE_OUTPUT_FORMAT", ["output", "format"]),
    ("OPENAI_API_KEY", []),
    ("ANTHROPIC_API_KEY", [])
  ]

  /**
   * `_convert_env_value`: a float for a temperature or retry delay, an int for
   * a token or attempt count, a bool for `true`/`false` in any case, and the
   * string itself otherwise. An unparsable number fails.
   */
  function ConvertEnvValue(value: string, path: seq<string>, parsers: Parsers): (r: Result<Yaml>)
    ensures "temperature" in path || ("retry_delay" in path && "max_tokens" !in path && "retry_attempts" !in path) ==>
              if parsers.toFloat(value).Some? then r == Success(YFloat(parsers.toFloat(value).value)) else r.Failure?
    ensures "temperature" !in path && ("max_tokens" in path || "retry_attempts" in path) ==>
              if parsers.toInt(value).Some? then r == Success(YInt(parsers.toInt(value).value)) else r.Failure?
    ensures UntypedPath(path) ==> r.Success? && (r.value.YBool? <==> Lower(value) in ["true", "false"])
    ensures UntypedPath(path) && Lower(value) !in ["true", "false"] ==> r == Success(YStr(value))
    ensures r.Success? && r.value.YBool? ==> Lower(value) in ["true", "false"] && (r.value.b <==> Lower(value) == "true")
    ensures r.Success? && r.value.YStr? ==> r.value.s == value
    ensures r.Success? ==> r.value.YFloat? || r.value.YInt? || r.value.YBool? || r.value.YStr?
    ensures r.Failure? ==> !UntypedPath(path)
    ensures r.Failure? ==> r.error == IntMessage(value) || r.error == FloatMessage(value)
  {
    if "temperature" in path then FloatOf(value, parsers)
    else if "max_tokens" in path || "retry_attempts" in path then
      match parsers.toInt(value)
      case None => Failure(IntMessage(value))
      case Some(n) => Success(YInt(n))
    else if "retry_delay" in path then FloatOf(value, parsers)
    else if Lower(value) in ["true", "false"] then Success(YBool(Lower(value) == "true"))
    else Success(YStr(value))
  }

  /** `int()`'s error: the value's repr, cut to 200 characters. */
  function IntMessage(value: string): string {
    "invalid literal for int() with base 10: " + Take(Repr(value), 200)
  }

  /** `float()`'s error: the value's whole repr. */
  function FloatMessage(value: string): string {
    "could not convert string to float: " + Repr(value)
  }

  /** An unparsable token count holding a single quote is shown in double quotes. */
  lemma IntMessageQuote(parsers: Parsers)
    requires parsers.toInt("o'x").None?
    ensures ConvertEnvValue("o'x", ["llm", "max_tokens"], parsers)
            == Failure("invalid literal for int() with base 10: \"o'x\"")
  {
    ReprSingleQuote();
    assert Take(Repr("o'x"), 200) == "\"o'x\"";
    assert "temperature" !in ["llm", "max_tokens"] && "max_tokens" in ["llm", "max_tokens"];
  }

  /** A path naming none of the keys whose values are converted to numbers. */
  predicate UntypedPath(path: seq<string>) {
    "temperature" !in path && "max_tokens" !in path && "retry_attempts" !in path && "retry_delay" !in path
  }

  function FloatOf(value: string, parsers: Parsers): (r: Result<Yaml>)
    ensures parsers.toFloat(value).Some? <==> r.Success?
    ensures r.Failure? ==> r.error == FloatMessage(value)
  {
    match parsers.toFloat(value)
    case None => Failure(FloatMessage(value))
    case Some(x) => Success(YFloat(x))
  }

  /** A table of variables and the paths they write; `EnvMappings` is the one in use. */
  type Table = seq<(string, seq<string>)>

  /** Whether the `i`-th mapping fires: its variable is set, non-empty, and has a path. */
  predicate Fires(table: Table, env: map<string, string>, i: nat)
    requires i < |table|
  {
    table[i].0 in env && env[table[i].0] != "" && table[i].1 != []
  }

  /** One entry of the override loop. */
  function OverrideStep(table: Table, config: Yaml, env: map<string, string>, parsers: Parsers, i: nat): Result<Yaml>
    requires i < |table|
  {
    if Fires(table, env, i) then
      var (name, path) := table[i];
      SetPath(config, path, ConvertEnvValue(env[name], path, parsers))
    else Success(config)
  }

  /** The first `n` entries of the override loop; the first failure ends it. */
  function Overridden(table: Table, config: Yaml, env: map<string, string>, parsers: Parsers, n: nat): Result<Yaml>
    requires n <= |table|
  {
    if n == 0 then Success(config)
    else
      match Overridden(table, config, env, parsers, n - 1)
      case Failure(e) => Failure(e)
      case Success(c) => OverrideStep(table, c, env, parsers, n - 1)
  }

  /** The mapped paths of a table part pairwise. */
  predicate PathsPart(table: Table) {
    forall i, j :: 0 <= i < |table| && 0 <= j < |table| && i != j && table[i].1 != [] && table[j].1 != [] ==>
      Apart(table[i].1, table[j].1)
  }

  /** No two variables in use write to the same setting, nor one inside another. */
  lemma MappingsPart()
    ensures PathsPart(EnvMappings)
  {
    forall i, j | 0 <= i < |EnvMappings| && 0 <= j < |EnvMappings| && i != j && EnvMappings[i].1 != [] && EnvMappings[j].1 != []
      ensures Apart(EnvMappings[i].1, EnvMappings[j].1)
    {
      ApartTwo(EnvMappings[i].1, EnvMappings[j].1);
    }
  }

  /** Two different two-key paths part. */
  lemma ApartTwo(p: seq<string>, q: seq<string>)
    requires |p| == 2 && |q| == 2 && p != q
    ensures Apart(p, q)
  {
    if p[0] == q[0] {
      assert p[1] != q[1];
      assert Apart(p[1..], q[1..]);
    }
  }

  /** A path apart from every mapped path keeps its value through the first `n` entries. */
  lemma {:induction false} OverriddenKeeps(table: Table, config: Yaml, env: map<string, string>, parsers: Parsers,
                                           n: nat, q: seq<string>)
    requires n <= |table| && Overridden(table, config, env, parsers, n).Success?
    requires forall i :: 0 <= i < |table| && table[i].1 != [] ==> Apart(table[i].1, q)
    ensures GetPath(Overridden(table, config, env, parsers, n).value, q) == GetPath(config, q)
  {
    if n > 0 {
      var c := Overridden(table, config, env, parsers, n - 1).value;
      OverriddenKeeps(table, config, env, parsers, n - 1, q);
      if Fires(table, env, n - 1) {
        var (name, path) := table[n - 1];
        SetKeepsApart(c, path, ConvertEnvValue(env[name], path, parsers), q);
      }
    }
  }

  /** After entry `i` fired, later entries leave its path alone. */
  lemma {:induction false} OverriddenHolds(table: Table, config: Yaml, env: map<string, string>, parsers: Parsers,
                                           n: nat, i: nat, v: Yaml)
    requires PathsPart(table) && i < n <= |table| && table[i].1 != []
    requires Overridden(table, config, env, parsers, n).Success? && Overridden(table, config, env, parsers, i + 1).Success?
    requires GetPath(Overridden(table, config, env, parsers, i + 1).value, table[i].1) == Some(v)
    ensures GetPath(Overridden(table, config, env, parsers, n).value, table[i].1) == Some(v)
  {
    if n > i + 1 {
      OverriddenHolds(table, config, env, parsers, n - 1, i, v);
      var c := Overridden(table, config, env, parsers, n - 1).value;
      if Fires(table, env, n - 1) {
        var (name, path) := table[n - 1];
        SetKeepsApart(c, path, ConvertEnvValue(env[name], path, parsers), table[i].1);
      }
    }
  }

  /** A prefix of the loop that fails makes the whole loop fail. */
  lemma {:induction false} OverriddenFailsOn(table: Table, config: Yaml, env: map<string, string>, parsers: Parsers,
                                             k: nat, n: nat)
    requires k <= n <= |table| && Overridden(table, config, env, parsers, k).Failure?
    ensures Overridden(table, config, env, parsers, n) == Overridden(table, config, env, parsers, k)
  {
    if n > k {
      OverriddenFailsOn(table, config, env, parsers, k, n - 1);
    }
  }

  /**
   * An override that fires wins: after a successful loop the variable's path
   * holds its converted value, whatever the file held there.
   */
  lemma OverrideWins(table: Table, config: Yaml, env: map<string, string>, parsers: Parsers, i: nat)
    requires PathsPart(table) && i < |table| && Fires(table, env, i)
    requires Overridden(table, config, env, parsers, |table|).Success?
    ensures var (name, path) := table[i];
            var v := ConvertEnvValue(env[name], path, parsers);
            v.Success? && GetPath(Overridden(table, config, env, parsers, |table|).value, path) == Some(v.value)
  {
    var (name, path) := table[i];
    if Overridden(table, config, env, parsers, i + 1).Failure? {
      OverriddenFailsOn(table, config, env, parsers, i + 1, |table|);
    }
    var c := Overridden(table, config, env, parsers, i).value;
    var v := ConvertEnvValue(env[name], path, parsers);
    SetThenGet(c, path, v);
    OverriddenHolds(table, config, env, parsers, |table|, i, v.value);
  }

  /** With no mapped variable set, the configuration is returned as it was. */
  lemma {:induction false} NothingSetNothingChanges(table: Table, config: Yaml, env: map<string, string>,
                                                    parsers: Parsers, n: nat)
    requires n <= |table|
    requires forall i :: 0 <= i < |table| ==> !Fires(table, env, i)
    ensures Overridden(table, config, env, parsers, n) == Success(config)
  {
    if n > 0 {
      NothingSetNothingChanges(table, config, env, parsers, n - 1);
    }
  }

  /** The API-key variables never change the configuration. */
  lemma ApiKeysNeverWritten(config: Yaml, env: map<string, string>, parsers: Parsers, key: string)
    requires key in ["OPENAI_API_KEY", "ANTHROPIC_API_KEY"]
    ensures Overridden(EnvMappings, config, env, parsers, |EnvMappings|)
         == Overridden(EnvMappings, config, env - {key}, parsers, |EnvMappings|)
  {
    var env' := env - {key};
    forall i | 0 <= i < |EnvMappings|
      ensures Fires(EnvMappings, env, i) == Fires(EnvMappings, env', i)
      ensures Fires(EnvMappings, env, i) ==> env[EnvMappings[i].0] == env'[EnvMappings[i].0]
    {
    }
    SameFiring(EnvMappings, config, env, env', parsers, |EnvMappings|);
  }

  lemma {:induction false} SameFiring(table: Table, config: Yaml, env: map<string, string>,
                                      env': map<string, string>, parsers: Parsers, n: nat)
    requires n <= |table|
    requires forall i :: 0 <= i < |table| ==>
               Fires(table, env, i) == Fires(table, env', i) && (Fires(table, env, i) ==> env[table[i].0] == env'[table[i].0])
    ensures Overridden(table, config, env, parsers, n) == Overridden(table, config, env', parsers, n)
  {
    if n > 0 {
      SameFiring(table, config, env, env', parsers, n - 1);
    }
  }

  /** `_apply_env_overrides`: each mapping in order, writing the variables that fire. */
  method ApplyEnvOverrides(config: Yaml, env: map<string, string>, parsers: Parsers) returns (r: Result<Yaml>)
    ensures r == Overridden(EnvMappings, config, env, parsers, |EnvMappings|)
  {
    var table := EnvMappings;
    var current := config;
    for i := 0 to |table|
      invariant Overridden(table, config, env, parsers, i) == Success(current)
    {
      var (name, path) := table[i];
      if name in env && env[name] != "" && path != [] {
        var converted := ConvertEnvValue(env[name], path, parsers);
        var written := SetPath(current, path, converted);
        assert Fires(table, env, i) && Overridden(table, config, env, parsers, i + 1) == written;
        if written.Failure? {
          OverriddenFailsOn(table, config, env, parsers, i + 1, |table|);
          return Failure(written.error);
        }
        current := written.value;
      }
    }
    return Success(current);
  }

  // ---------------------------------------------------------------------
  // The typed configuration with defaults

  /** Python's type name, as attribute errors print it. */
  function TypeName(y: Yaml): string {
    match y
    case YStr(_) => "str"
    case YInt(_) => "int"
    case YFloat(_) => "float"
    case YBool(_) => "bool"
    case YNull => "NoneType"
    case YList(_) => "list"
    case YMap(_) => "dict"
  }

  const TypedFailure := "Failed to create typed configuration: "

  /** `data.get(name, {})` on a section: absent is empty; a non-mapping has no `get`. */
  function Section(m: map<string, Yaml>, name: string): (r: Result<map<string, Yaml>>)
    ensures name !in m ==> r == Success(map[])
    ensures r.Success? && name in m ==> m[name] == YMap(r.value)
  {
    if name !in m then Success(map[])
    else if m[name].YMap? then Success(m[name].entries)
    else Failure(TypedFailure + "'" + TypeName(m[name]) + "' object has no attribute 'get'")
  }

  function WrongType(key: string): string {
    TypedFailure + "setting '" + key + "' has the wrong type"
  }

  function TextOr(m: map<string, Yaml>, key: string, default: string): (r: Result<string>)
    ensures key !in m ==> r == Success(default)
    ensures key in m ==> (r.Success? <==> m[key].YStr?) && (r.Success? ==> r.value == m[key].s)
  {
    if key !in m then Success(default)
    else if m[key].YStr? then Success(m[key].s)
    else Failure(WrongType(key))
  }

  function IntOr(m: map<string, Yaml>, key: string, default: int): (r: Result<int>)
    ensures key !in m ==> r == Success(default)
    ensures key in m ==> (r.Success? <==> m[key].YInt?) && (r.Success? ==> r.value == m[key].i)
  {
    if key !in m then Success(default)
    else if m[key].YInt? then Success(m[key].i)
    else Failure(WrongType(key))
  }

  /** A float setting; an integer is taken as the same number. */
  function RealOr(m: map<string, Yaml>, key: string, default: real): (r: Result<real>)
    ensures key !in m ==> r == Success(default)
    ensures key in m && m[key].YFloat? ==> r == Success(m[key].r)
    ensures key in m && m[key].YInt? ==> r == Success(m[key].i as real)
  {
    if key !in m then Success(default)
    else if m[key].YFloat? then Success(m[key].r)
    else if m[key].YInt? then Success(m[key].i as real)
    else Failure(WrongType(key))
  }

  function FlagOr(m: map<string, Yaml>, key: string, default: bool): (r: Result<bool>)
    ensures key !in m ==> r == Success(default)
    ensures key in m ==> (r.Success? <==> m[key].YBool?) && (r.Success? ==> r.value == m[key].b)
  {
    if key !in m then Success(default)
    else if m[key].YBool? then Success(m[key].b)
    else Failure(WrongType(key))
  }

  /** `llm_data.get('model')`: none when absent or null. */
  function ModelOf(m: map<string, Yaml>): (r: Result<Option<string>>)
    ensures "model" !in m ==> r == Success(None)
  {
    if "model" !in m || m["model"].YNull? then Success(None)
    else if m["model"].YStr? then Success(Some(m["model"].s))
    else Failure(WrongType("model"))
  }

  function LlmOf(m: map<string, Yaml>): Result<LlmSettings> {
    var provider :- TextOr(m, "provider", "anthropic");
    var model :- ModelOf(m);
    var temperature :- RealOr(m, "temperature", 0.3);
    var maxTokens :- IntOr(m, "max_tokens", 2000);
    var retryAttempts :- IntOr(m, "retry_attempts", 3);
    var retryDelay :- RealOr(m, "retry_delay", 2.0);
    Success(LlmSettings(provider, model, temperature, maxTokens, retryAttempts, retryDelay))
  }

  function RemNoteOf(m: map<string, Yaml>): Result<RemNoteSettings> {
    var folder :- TextOr(m, "default_folder", "ML System Design");
    var hierarchy :- FlagOr(m, "include_hierarchy", true);
    Success(RemNoteSettings(folder, hierarchy))
  }

  function GenerationOf(m: map<string, Yaml>): Result<GenerationSettings> {
    var perConcept :- Section(m, "cards_per_concept");
    var min :- IntOr(perConcept, "min", 3);
    var max :- IntOr(perConcept, "max", 5);
    var types :- Section(m, "card_types");
    var concept :- FlagOr(types, "concept", true);
    var basic :- FlagOr(types, "basic", true);
    var cloze :- FlagOr(types, "cloze", true);
    var descriptor :- FlagOr(types, "descriptor", true);
    var examples :- FlagOr(m, "include_examples", true);
    var shares :- Section(m, "difficulty_distribution");
    var beginner :- RealOr(shares, "beginner", 0.3);
    var intermediate :- RealOr(shares, "intermediate", 0.5);
    var advanced :- RealOr(shares, "advanced", 0.2);
    Success(GenerationSettings(CardsPerConcept(min, max), CardTypeSwitches(concept, basic, cloze, descriptor),
                               examples, DifficultyShares(beginner, intermediate, advanced)))
  }

  function OutputOf(m: map<string, Yaml>): Result<OutputSettings> {
    var format :- TextOr(m, "format", "remnote_text");
    var stats :- FlagOr(m, "include_stats", true);
    var metadata :- FlagOr(m, "include_metadata", false);
    Success(OutputSettings(format, stats, metadata))
  }

  /**
   * `_create_typed_config`: every section and setting read with its default.
   * A section that is not a mapping fails, as its missing `get` does.
   */
  function TypedConfig(raw: Yaml): Result<AppConfig> {
    if !raw.YMap? then Failure(TypedFailure + "'" + TypeName(raw) + "' object has no attribute 'get'")
    else
      var llm :- Section(raw.entries, "llm");
      var llmSettings :- LlmOf(llm);
      var remnote :- Section(raw.entries, "remnote");
      var remnoteSettings :- RemNoteOf(remnote);
      var generation :- Section(raw.entries, "generation");
      var generationSettings :- GenerationOf(generation);
      var output :- Section(raw.entries, "output");
      var outputSettings :- OutputOf(output);
      var prompts :- Section(raw.entries, "prompts");
      var systemPrompt :- TextOr(prompts, "system_prompt", DefaultSystemPrompt);
      Success(AppConfig(llmSettings, remnoteSettings, generationSettings, outputSettings, systemPrompt))
  }

  /** An empty configuration mapping gives every default. */
  lemma EmptyGivesDefaults()
    ensures TypedConfig(YMap(map[])) == Success(DefaultConfig)
  {
    assert LlmOf(map[]) == Success(DefaultConfig.llm);
    assert GenerationOf(map[]) == Success(DefaultConfig.generation);
  }

  /** A two-key path looks into the mapping under the first key. */
  lemma GetTwo(y: Yaml, a: string, b: string)
    ensures GetPath(y, [a, b]) ==
              if y.YMap? && a in y.entries && y.entries[a].YMap? && b in y.entries[a].entries
              then Some(y.entries[a].entries[b]) else None
  {
    assert [a, b][1..] == [b];
    if y.YMap? && a in y.entries {
      var z := y.entries[a];
      assert [b][1..] == [];
      if z.YMap? && b in z.entries {
        assert GetPath(z, [b]) == GetPath(z.entries[b], []);
      }
    }
  }

  /** A typed configuration reads its LLM settings from the `llm` section. */
  lemma LlmSection(raw: Yaml)
    requires TypedConfig(raw).Success?
    ensures raw.YMap? && Section(raw.entries, "llm").Success?
    ensures LlmOf(Section(raw.entries, "llm").value) == Success(TypedConfig(raw).value.llm)
  {
  }

  /** How `LlmOf` reads the provider and the token limit. */
  lemma LlmReads(m: map<string, Yaml>)
    requires LlmOf(m).Success?
    ensures TextOr(m, "provider", "anthropic") == Success(LlmOf(m).value.provider)
    ensures IntOr(m, "max_tokens", 2000) == Success(LlmOf(m).value.maxTokens)
  {
  }

  /** The provider is the file's string when given and `anthropic` when not. */
  lemma ProviderRead(raw: Yaml)
    requires TypedConfig(raw).Success?
    ensures GetPath(raw, ["llm", "provider"]).None? ==> TypedConfig(raw).value.llm.provider == "anthropic"
    ensures GetPath(raw, ["llm", "provider"]).Some? ==>
              GetPath(raw, ["llm", "provider"]).value == YStr(TypedConfig(raw).value.llm.provider)
  {
    LlmSection(raw);
    LlmReads(Section(raw.entries, "llm").value);
    GetTwo(raw, "llm", "provider");
  }

  /** The token limit is the file's integer when given and 2000 when not. */
  lemma MaxTokensRead(raw: Yaml)
    requires TypedConfig(raw).Success?
    ensures GetPath(raw, ["llm", "max_tokens"]).None? ==> TypedConfig(raw).value.llm.maxTokens == 2000
    ensures GetPath(raw, ["llm", "max_tokens"]).Some? ==>
              GetPath(raw, ["llm", "max_tokens"]).value == YInt(TypedConfig(raw).value.llm.maxTokens)
  {
    LlmSection(raw);
    LlmReads(Section(raw.entries, "llm").value);
    GetTwo(raw, "llm", "max_tokens");
  }

  /**
   * `load_config` after the schema check: a set `REMNOTE_LLM_MAX_TOKENS`
   * that parses beats whatever the file says.
   */
  lemma EnvTokenLimitWins(config: Yaml, env: map<string, string>, parsers: Parsers)
    requires "REMNOTE_LLM_MAX_TOKENS" in env && env["REMNOTE_LLM_MAX_TOKENS"] != ""
    requires Overridden(EnvMappings, config, env, parsers, |EnvMappings|).Success?
    requires TypedConfig(Overridden(EnvMappings, config, env, parsers, |EnvMappings|).value).Success?
    ensures parsers.toInt(env["REMNOTE_LLM_MAX_TOKENS"]).Some?
    ensures TypedConfig(Overridden(EnvMappings, config, env, parsers, |EnvMappings|).value).value.llm.maxTokens
              == parsers.toInt(env["REMNOTE_LLM_MAX_TOKENS"]).value
  {
    assert EnvMappings[3] == ("REMNOTE_LLM_MAX_TOKENS", ["llm", "max_tokens"]);
    MappingsPart();
    OverrideWins(EnvMappings, config, env, parsers, 3);
    MaxTokensRead(Overridden(EnvMappings, config, env, parsers, |EnvMappings|).value);
  }

  // ---------------------------------------------------------------------
  // Validation

  /** How a float prints; Python's float formatting is not modelled. */
  type FloatText = real -> string

  /** The checks of `validate_config`, each independently. */
  predicate ProviderOk(c: AppConfig) { c.llm.provider in ["openai", "anthropic"] }
  predicate TemperatureOk(c: AppConfig) { 0.0 <= c.llm.temperature <= 2.0 }
  predicate MaxTokensOk(c: AppConfig) { 100 <= c.llm.maxTokens <= 8000 }
  predicate CardRangeOk(c: AppConfig) { c.generation.cardsPerConcept.min <= c.generation.cardsPerConcept.max }

  function ShareTotal(c: AppConfig): real {
    c.generation.difficulty.beginner + c.generation.difficulty.intermediate + c.generation.difficulty.advanced
  }

  predicate SharesOk(c: AppConfig) { -0.01 <= ShareTotal(c) - 1.0 <= 0.01 }
  predicate FormatOk(c: AppConfig) { c.output.format in ["remnote_text", "remnote_api"] }

  predicate Valid(c: AppConfig) {
    ProviderOk(c) && TemperatureOk(c) && MaxTokensOk(c) && CardRangeOk(c) && SharesOk(c) && FormatOk(c)
  }

  /** The failures `validate_config` reports, one per failed check. */
  datatype ConfigError =
    | BadProvider(provider: string)
    | BadTemperature(temperature: real)
    | BadMaxTokens(maxTokens: int)
    | CardRangeInverted
    | BadShares(total: real)
    | BadFormat(format: string)

  function Message(e: ConfigError, show: FloatText): string {
    match e
    case BadProvider(p) => "Invalid LLM provider: " + p
    case BadTemperature(t) => "Invalid temperature: " + show(t)
    case BadMaxTokens(n) => "Invalid max_tokens: " + IntText(n)
    case CardRangeInverted => "Minimum cards per concept cannot exceed maximum"
    case BadShares(total) => "Difficulty distribution must sum to 1.0, got " + show(total)
    case BadFormat(f) => "Invalid output format: " + f
  }

  /** The error of one check, when it fails. */
  function Check(ok: bool, e: ConfigError): seq<ConfigError> {
    if ok then [] else [e]
  }

  /** The errors of `validate_config`, in check order. */
  function ValidationErrors(c: AppConfig): seq<ConfigError> {
    Check(ProviderOk(c), BadProvider(c.llm.provider))
    + Check(TemperatureOk(c), BadTemperature(c.llm.temperature))
    + Check(MaxTokensOk(c), BadMaxTokens(c.llm.maxTokens))
    + Check(CardRangeOk(c), CardRangeInverted)
    + Check(SharesOk(c), BadShares(ShareTotal(c)))
    + Check(FormatOk(c), BadFormat(c.output.format))
  }

  /** The errors are empty exactly when every check passes. */
  lemma NoErrorsIffValid(c: AppConfig)
    ensures ValidationErrors(c) == [] <==> Valid(c)
  {
  }

  /** A failed check is reported once, a bad provider first and a bad format last. */
  lemma ValidationErrorsOrder(c: AppConfig)
    ensures |ValidationErrors(c)| <= 6
    ensures !ProviderOk(c) ==> ValidationErrors(c)[0] == BadProvider(c.llm.provider)
    ensures !FormatOk(c) ==> ValidationErrors(c)[|ValidationErrors(c)| - 1] == BadFormat(c.output.format)
    ensures !MaxTokensOk(c) <==> BadMaxTokens(c.llm.maxTokens) in ValidationErrors(c)
  {
  }

  /** The defaults pass validation. */
  lemma DefaultsValid()
    ensures ValidationErrors(DefaultConfig) == []
  {
    assert ShareTotal(DefaultConfig) == 1.0;
  }

  /** The line of one failure in the message. */
  function Bullet(e: ConfigError, show: FloatText): string {
    "- " + Message(e, show)
  }

  /** The bulleted lines of the failure message. */
  function Bullets(errors: seq<ConfigError>, show: FloatText): (r: seq<string>)
    ensures |r| == |errors|
  {
    if errors == [] then [] else Bullets(errors[..|errors| - 1], show) + [Bullet(errors[|errors| - 1], show)]
  }

  /** Bullet `i` is the line of error `i`: one bullet per error, in the order the errors were found. */
  lemma {:induction false} BulletAt(errors: seq<ConfigError>, show: FloatText, i: nat)
    requires i < |errors|
    ensures Bullets(errors, show)[i] == Bullet(errors[i], show)
    decreases |errors|
  {
    var pre := errors[..|errors| - 1];
    assert Bullets(errors, show) == Bullets(pre, show) + [Bullet(errors[|errors| - 1], show)];
    if i < |pre| {
      BulletAt(pre, show, i);
      assert errors[i] == pre[i];
    }
  }

  /** One `if …: errors.append(…)` of `validate_config`. */
  method AppendIf(errors: seq<ConfigError>, failed: bool, e: ConfigError) returns (out: seq<ConfigError>)
    ensures out == errors + Check(!failed, e)
  {
    out := errors;
    if failed {
      out := out + [e];
    }
  }

  /** `validate_config`: true, or one failure listing every error as a bullet. */
  method ValidateConfig(c: AppConfig, show: FloatText) returns (r: Result<bool>)
    ensures r.Success? <==> Valid(c)
    ensures r.Success? ==> r.value
    ensures r.Failure? ==> r.error == "Configuration validation failed:\n" + Join(Bullets(ValidationErrors(c), show), "\n")
  {
    var errors: seq<ConfigError> := [];
    errors := AppendIf(errors, !ProviderOk(c), BadProvider(c.llm.provider));
    assert errors == Check(ProviderOk(c), BadProvider(c.llm.provider));
    errors := AppendIf(errors, !TemperatureOk(c), BadTemperature(c.llm.temperature));
    errors := AppendIf(errors, !MaxTokensOk(c), BadMaxTokens(c.llm.maxTokens));
    errors := AppendIf(errors, !CardRangeOk(c), CardRangeInverted);
    errors := AppendIf(errors, !SharesOk(c), BadShares(ShareTotal(c)));
    errors := AppendIf(errors, !FormatOk(c), BadFormat(c.output.format));
    NoErrorsIffValid(c);
    if errors != [] {
      return Failure("Configuration validation failed:\n" + Join(Bullets(errors, show), "\n"));
    }
    return Success(true);
  }

  // ---------------------------------------------------------------------
  // API keys

  /** `get_api_key`: the provider's key variable, named case-insensitively; none for another provider. */
  function ApiKey(provider: string, env: map<string, string>): (r: Option<string>)
    ensures r.Some? ==> Lower(provider) in ["openai", "anthropic"]
    ensures Lower(provider) == "openai" ==> r == (if "OPENAI_API_KEY" in env then Some(env["OPENAI_API_KEY"]) else None)
    ensures Lower(provider) == "anthropic" ==>
              r == (if "ANTHROPIC_API_KEY" in env then Some(env["ANTHROPIC_API_KEY"]) else None)
  {
    if Lower(provider) == "openai" then
      if "OPENAI_API_KEY" in env then Some(env["OPENAI_API_KEY"]) else None
    else if Lower(provider) == "anthropic" then
      if "ANTHROPIC_API_KEY" in env then Some(env["ANTHROPIC_API_KEY"]) else None
    else None
  }

  /** The key lookup ignores the case of the provider's name. */
  lemma ApiKeyIgnoresCase(provider: string, env: map<string, string>)
    ensures ApiKey(provider, env) == ApiKey(Lower(provider), env)
  {
    LowerTwice(provider);
  }
}
