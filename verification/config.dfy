/** `config/config_loader.py`: the JSON configuration normalised once at
    start-up, flags read with environment override, and the per-engine rule
    lists. The file system and the environment are inputs. */
module Config {
  import opened Common
  import opened Text

  /** A configuration or environment value as Python sees it after parsing. */
  datatype FlagValue =
    | IntFlag(i: int)
    | BoolFlag(b: bool)
    | StrFlag(s: string)
    | RealFlag(r: real)
    | OtherJson          // null, a list or an object

  /** The `prompts` object of the file; keys other than the three engines'
      are kept in `others`. */
  datatype PromptsDoc = PromptsDoc(
    base: Option<seq<string>>,
    chat: Option<seq<string>>,
    route: Option<seq<string>>,
    others: map<string, seq<string>>)

  /** The top-level JSON object of the file. */
  datatype ConfigDoc = ConfigDoc(
    useOrs: Option<FlagValue>,
    prompts: Option<PromptsDoc>,
    others: map<string, FlagValue>)

  /** What reading the configuration path gives. `Unreadable` covers every
      failure inside the `try`: unreadable file, invalid JSON, a top level or
      `prompts` value that is not an object, a rule value that `list()`
      rejects (null or a number). A `Document` holds rule lists of strings
      only; a string or an object as rule value is outside the model. */
  datatype ConfigFile = Missing | Unreadable | Document(doc: ConfigDoc)

  /** The normalised configuration `_CFG`. */
  datatype Settings = Settings(useOrs: FlagValue, base: seq<string>, chat: seq<string>, route: seq<string>)

  /** The fallback for a missing or unreadable file. */
  const Defaults: Settings := Settings(IntFlag(0), [], [], [])

  /** `config.json` beside the loader module. */
  const DefaultConfigPath: string := "config/config.json"

  /** `os.getenv("CONFIG_FILE") or <default path>` */
  function ConfigPath(env: map<string, string>): (path: string)
    ensures "CONFIG_FILE" in env && env["CONFIG_FILE"] != "" ==> path == env["CONFIG_FILE"]
    ensures !("CONFIG_FILE" in env && env["CONFIG_FILE"] != "") ==> path == DefaultConfigPath
  {
    if "CONFIG_FILE" in env && env["CONFIG_FILE"] != "" then env["CONFIG_FILE"] else DefaultConfigPath
  }

  /** The "minimal normalisation": `USE_ORS` defaults to 0, each rule list to
      the empty list, and every other key is dropped. */
  function Normalize(doc: ConfigDoc): (c: Settings)
    ensures c.useOrs == (if doc.useOrs.Some? then doc.useOrs.value else IntFlag(0))
    ensures doc.prompts.None? ==> c.base == [] && c.chat == [] && c.route == []
    ensures doc.prompts.Some? ==>
              && c.base == (if doc.prompts.value.base.Some? then doc.prompts.value.base.value else [])
              && c.chat == (if doc.prompts.value.chat.Some? then doc.prompts.value.chat.value else [])
              && c.route == (if doc.prompts.value.route.Some? then doc.prompts.value.route.value else [])
  {
    var prompts := doc.prompts.GetOr(PromptsDoc(None, None, None, map[]));
    Settings(doc.useOrs.GetOr(IntFlag(0)), prompts.base.GetOr([]), prompts.chat.GetOr([]), prompts.route.GetOr([]))
  }

  /** Keys other than `USE_ORS` and the three rule lists have no effect. */
  lemma NormalizeIgnoresOtherKeys(doc: ConfigDoc, extra: map<string, FlagValue>, extraPrompts: map<string, seq<string>>)
    requires doc.prompts.Some?
    ensures Normalize(doc.(others := extra)) == Normalize(doc)
    ensures Normalize(doc.(prompts := Some(doc.prompts.value.(others := extraPrompts)))) == Normalize(doc)
  {
  }

  /** `_load_config()` */
  function LoadConfig(env: map<string, string>, files: string -> ConfigFile): (c: Settings)
    ensures !files(ConfigPath(env)).Document? ==> c == Defaults
    ensures files(ConfigPath(env)).Document? ==> c == Normalize(files(ConfigPath(env)).doc)
  {
    match files(ConfigPath(env))
    case Document(doc) => Normalize(doc)
    case _ => Defaults
  }

  /** A missing or unreadable file never fails start-up: premium routing is
      off and every rule list is empty. */
  lemma LoadFailureGivesDefaults(env: map<string, string>, files: string -> ConfigFile)
    requires files(ConfigPath(env)).Missing? || files(ConfigPath(env)).Unreadable?
    ensures LoadConfig(env, files).useOrs == IntFlag(0)
    ensures LoadConfig(env, files).base == [] && LoadConfig(env, files).chat == []
    ensures LoadConfig(env, files).route == []
  {
  }

  /** The conversion `get_flag` applies to an environment value: an all-digit
      string becomes an int, "true"/"false" in any case a bool, anything else
      stays the raw string. Only ASCII digits are modelled. */
  function ParseEnvValue(v: string): (f: FlagValue)
    ensures AllDigits(v) ==> f == IntFlag(DigitsValue(v))
    ensures f.IntFlag? ==> f.i >= 0
    ensures !AllDigits(v) && AsciiLower(v) in {"true", "false"} ==> f == BoolFlag(AsciiLower(v) == "true")
    ensures !AllDigits(v) && AsciiLower(v) !in {"true", "false"} ==> f == StrFlag(v)
  {
    if AllDigits(v) then IntFlag(DigitsValue(v))
    else if AsciiLower(v) in {"true", "false"} then BoolFlag(AsciiLower(v) == "true")
    else StrFlag(v)
  }

  /** Every natural number written in decimal reads back as that number. */
  lemma ParseEnvValueReadsNumbers(n: nat)
    ensures ParseEnvValue(ShowNat(n)) == IntFlag(n)
  {
    ShowNatRoundTrip(n);
  }

  /** The edge cases: a sign, the empty string and a word that is not a
      boolean stay strings. */
  lemma ParseEnvValueExamples()
    ensures ParseEnvValue("-1") == StrFlag("-1")
    ensures ParseEnvValue("") == StrFlag("")
    ensures ParseEnvValue("yes") == StrFlag("yes")
  {
    assert !IsDigit("-1"[0]);
    assert !IsDigit("yes"[0]);
  }

  /** The boolean words are read in any case. */
  lemma ParseEnvValueMixedCase()
    ensures ParseEnvValue("TrUe") == BoolFlag(true)
    ensures ParseEnvValue("FALSE") == BoolFlag(false)
  {
    assert !IsDigit("TrUe"[0]);
    assert !IsDigit("FALSE"[0]);
    var t, f := AsciiLower("TrUe"), AsciiLower("FALSE");
    assert t[0] == 't' && t[1] == 'r' && t[2] == 'u' && t[3] == 'e';
    assert t == "true";
    assert f[0] == 'f' && f[1] == 'a' && f[2] == 'l' && f[3] == 's' && f[4] == 'e';
    assert f == "false";
  }

  /** `get_flag(name, default)`: the environment wins; otherwise the
      normalised configuration, whose only keys are `USE_ORS` and `prompts`
      (a mapping, so not a flag value); otherwise the caller's default. */
  function GetFlag(c: Settings, env: map<string, string>, name: string, default: FlagValue): (f: FlagValue)
    ensures name in env ==> f == ParseEnvValue(env[name])
    ensures name !in env && name == "USE_ORS" ==> f == c.useOrs
    ensures name !in env && name != "USE_ORS" && name != "prompts" ==> f == default
  {
    if name in env then ParseEnvValue(env[name])
    else if name == "USE_ORS" then c.useOrs
    else if name == "prompts" then OtherJson
    else default
  }

  /** `base_rules()` */
  function BaseRules(c: Settings): seq<string> {
    c.base
  }

  /** `engine_rules(name)`: the list stored under `prompts[name]`. The
      normalised `prompts` holds exactly the keys "base", "chat" and "route",
      so the name "base" also finds a list. */
  function EngineRules(c: Settings, name: string): (r: seq<string>)
    ensures name == "chat" ==> r == c.chat
    ensures name == "route" ==> r == c.route
    ensures name == "base" ==> r == c.base
    ensures name !in {"base", "chat", "route"} ==> r == []
  {
    if name == "base" then c.base
    else if name == "chat" then c.chat
    else if name == "route" then c.route
    else []
  }

  /** `combined_rules(name)`: the base rules, then the engine's, each in its
      original order. */
  function CombinedRules(c: Settings, name: string): (r: seq<string>)
    ensures |r| == |c.base| + |EngineRules(c, name)|
    ensures r[..|c.base|] == c.base
    ensures r[|c.base|..] == EngineRules(c, name)
    ensures name !in {"base", "chat", "route"} ==> r == c.base
  {
    BaseRules(c) + EngineRules(c, name)
  }
}
