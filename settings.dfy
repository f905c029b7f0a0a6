/**
  The application settings (`config/settings.py`): per-tool toggles, the
  lookups that default a tool absent from the configuration to enabled with
  an empty config, and `load_settings`, which builds the settings from the
  environment map and the configuration file's map (both read elsewhere).
*/
module AppSettings {
  import opened Wrappers
  import opened Dicts
  import opened Values
  import opened Errors
  import opened PyOps
  import Text
  import Loaders
  import opened Paths

  datatype ToolToggle = ToolToggle(enabled: bool, config: Assoc<Value>)

  /** `ToolToggle()`: enabled, with an empty config. */
  const DefaultToggle := ToolToggle(true, [])

  datatype Settings = Settings(
    appName: string,
    logLevel: string,
    enabledTools: Assoc<ToolToggle>,
    configFile: Option<Path>,
    extra: Assoc<Value>)

  const DefaultAppName := "AI-Assistant Hub"
  const DefaultLogLevel := "INFO"

  /** `tool_is_enabled`: a tool the configuration does not mention is enabled. */
  function ToolIsEnabled(s: Settings, toolName: string): (b: bool)
    ensures !HasKey(s.enabledTools, toolName) ==> b
    ensures HasKey(s.enabledTools, toolName) ==> b == Get(s.enabledTools, toolName).value.enabled
  {
    GetOr(s.enabledTools, toolName, DefaultToggle).enabled
  }

  /** `tool_config`: a tool the configuration does not mention has an empty config. */
  function ToolConfig(s: Settings, toolName: string): (c: Assoc<Value>)
    ensures !HasKey(s.enabledTools, toolName) ==> c == []
    ensures HasKey(s.enabledTools, toolName) ==> c == Get(s.enabledTools, toolName).value.config
  {
    GetOr(s.enabledTools, toolName, DefaultToggle).config
  }

  /**
    The toggle built from one raw tool entry: `enabled` is the truth value of
    the entry's "enabled" (True when absent), `config` is `dict()` of the
    entry's "config" ({} when absent), which raises when that is no mapping.
  */
  function Toggle(entry: Assoc<Value>): (r: Result<ToolToggle, Exc>)
    ensures r.Ok? ==> r.value.enabled == Truthy(GetOr(entry, "enabled", Bool(true)))
    ensures !HasKey(entry, "enabled") && r.Ok? ==> r.value.enabled
    ensures Get(entry, "config").None? ==> r.Ok? && r.value.config == []
    ensures Get(entry, "config").Some? && Get(entry, "config").value.Dict? ==>
      r.Ok? && r.value.config == Get(entry, "config").value.entries
  {
    match DictFrom(GetOr(entry, "config", Dict([])))
    case Err(e) => Err(e)
    case Ok(config) => Ok(ToolToggle(Truthy(GetOr(entry, "enabled", Bool(true))), config))
  }

  /** The toggles for `raw` (from its index on), added to `toggles` in order; the first error stops. */
  function TogglesFrom(toggles: Assoc<ToolToggle>, raw: Assoc<Assoc<Value>>): Result<Assoc<ToolToggle>, Exc>
    decreases |raw|
  {
    if raw == [] then Ok(toggles)
    else match Toggle(raw[0].1)
      case Err(e) => Err(e)
      case Ok(t) => TogglesFrom(Put(toggles, raw[0].0, t), raw[1..])
  }

  /** `_build_tool_toggles`: one toggle per raw tool entry. */
  method BuildToolToggles(raw: Assoc<Assoc<Value>>) returns (r: Result<Assoc<ToolToggle>, Exc>)
    ensures r == TogglesFrom([], raw)
  {
    var toggles: Assoc<ToolToggle> := [];
    var i := 0;
    while i < |raw|
      invariant 0 <= i <= |raw|
      invariant TogglesFrom(toggles, raw[i..]) == TogglesFrom([], raw)
    {
      var (name, config) := raw[i];
      assert raw[i..][0] == raw[i] && raw[i..][1..] == raw[i + 1..];
      var toggle := Toggle(config);
      if toggle.Err? {
        return Err(toggle.error);
      }
      toggles := Put(toggles, name, toggle.value);
      i := i + 1;
    }
    r := Ok(toggles);
  }

  /** Every raw entry converts to a toggle. */
  predicate AllConvert(raw: Assoc<Assoc<Value>>) {
    forall i :: 0 <= i < |raw| ==> Toggle(raw[i].1).Ok?
  }

  lemma AllConvertTail(raw: Assoc<Assoc<Value>>)
    requires raw != [] && AllConvert(raw)
    ensures Toggle(raw[0].1).Ok? && AllConvert(raw[1..])
  {
    forall i | 0 <= i < |raw[1..]| ensures Toggle(raw[1..][i].1).Ok? {
      assert raw[1..][i] == raw[i + 1];
    }
  }

  /** A key that is not among a dict's keys is no item's key. */
  lemma NotKeyOfAny<V>(a: Assoc<V>, k: string)
    requires !HasKey(a, k)
    ensures forall i :: 0 <= i < |a| ==> a[i].0 != k
  {
    forall i | 0 <= i < |a| ensures a[i].0 != k {
      KeysAt(a, i);
    }
  }

  /** When every entry converts, each raw tool's toggle is the one built from its entry, and nothing else changes. */
  lemma {:induction false} TogglesGet(toggles: Assoc<ToolToggle>, raw: Assoc<Assoc<Value>>, k: string)
    requires DistinctKeys(raw) && AllConvert(raw)
    ensures TogglesFrom(toggles, raw).Ok?
    ensures forall i :: 0 <= i < |raw| && raw[i].0 == k ==>
      Get(TogglesFrom(toggles, raw).value, k) == Some(Toggle(raw[i].1).value)
    ensures !HasKey(raw, k) ==> Get(TogglesFrom(toggles, raw).value, k) == Get(toggles, k)
    decreases |raw|
  {
    if raw != [] {
      var (name, entry) := raw[0];
      AllConvertTail(raw);
      var next := Put(toggles, name, Toggle(entry).value);
      assert DistinctKeys(raw[1..]);
      TogglesGet(next, raw[1..], k);
      if k == name {
        forall j | 0 <= j < |raw[1..]| ensures Keys(raw[1..])[j] != name {
          KeysAt(raw[1..], j);
        }
      }
      forall i | 0 < i < |raw| && raw[i].0 == k ensures raw[1..][i - 1].0 == k {
        assert raw[1..][i - 1] == raw[i];
      }
    }
  }

  /** The keys still to come stay absent after the first one is added. */
  lemma FreshAfterPut(toggles: Assoc<ToolToggle>, raw: Assoc<Assoc<Value>>, t: ToolToggle)
    requires raw != [] && DistinctKeys(raw)
    requires forall i :: 0 <= i < |raw| ==> !HasKey(toggles, raw[i].0)
    ensures forall i :: 0 <= i < |raw[1..]| ==> !HasKey(Put(toggles, raw[0].0, t), raw[1..][i].0)
  {
    var next := Put(toggles, raw[0].0, t);
    assert Keys(next) == Keys(toggles) + [raw[0].0];
    forall i | 0 <= i < |raw[1..]| ensures !HasKey(next, raw[1..][i].0) {
      assert raw[1..][i] == raw[i + 1];
      assert raw[i + 1].0 != raw[0].0;
      assert !HasKey(toggles, raw[i + 1].0);
    }
  }

  /** When every entry converts, there is exactly one toggle per raw tool, in the raw order. */
  lemma {:induction false} TogglesKeys(toggles: Assoc<ToolToggle>, raw: Assoc<Assoc<Value>>)
    requires DistinctKeys(raw) && AllConvert(raw)
    requires forall i :: 0 <= i < |raw| ==> !HasKey(toggles, raw[i].0)
    ensures TogglesFrom(toggles, raw).Ok?
    ensures Keys(TogglesFrom(toggles, raw).value) == Keys(toggles) + Keys(raw)
    decreases |raw|
  {
    if raw != [] {
      AllConvertTail(raw);
      var t := Toggle(raw[0].1).value;
      FreshAfterPut(toggles, raw, t);
      DistinctTail(raw);
      TogglesKeys(Put(toggles, raw[0].0, t), raw[1..]);
      PutFreshKeys(toggles, raw[0].0, t, Keys(raw[1..]));
    }
  }

  /** Keys the settings consume themselves. */
  predicate Reserved(key: string) {
    key == "APP_NAME" || key == "LOG_LEVEL" || key == "CONFIG_FILE"
  }

  /** `_extract_extra_fields`: every item that is neither reserved nor a `TOOL_` key, unchanged and in order. */
  function ExtractExtraFields(config: Assoc<Value>): (extra: Assoc<Value>)
    ensures forall k :: Get(extra, k) == if Reserved(k) || Text.StartsWith(k, "TOOL_") then None else Get(config, k)
    ensures |extra| <= |config|
  {
    if config == [] then []
    else
      var rest := ExtractExtraFields(config[1..]);
      if Reserved(config[0].0) || Text.StartsWith(config[0].0, "TOOL_") then rest
      else [config[0]] + rest
  }

  /** `_coerce_path`: None stays None, anything else becomes the path of its text. */
  function CoercePath(v: Option<Value>): (p: Option<Path>)
    ensures v.None? || v == Some(Null) <==> p.None?
    ensures p.Some? ==> p.value == Parse(PyStr(v.value))
    ensures p.Some? ==> Parse(ToText(p.value)) == p.value
  {
    if v.None? || v.value.Null? then None
    else
      ParseIdempotent(PyStr(v.value));
      Some(Parse(PyStr(v.value)))
  }

  /** The path `load_settings` reads the configuration file from: the argument, else the environment's CONFIG_FILE. */
  function ConfigSource(configPath: Option<Path>, base: Assoc<Value>): (src: Option<Value>)
    ensures configPath.Some? ==> src == Some(Str(ToText(configPath.value)))
    ensures configPath.None? ==> src == Get(base, "CONFIG_FILE")
  {
    if configPath.Some? then Some(Str(ToText(configPath.value))) else Get(base, "CONFIG_FILE")
  }

  /** A settings field that must be a string: its value, or the default when absent. */
  function StringField(merged: Assoc<Value>, key: string, default: string): (r: Result<string, Exc>)
    ensures !HasKey(merged, key) ==> r == Ok(default)
    ensures HasKey(merged, key) && Get(merged, key).value.Str? ==> r == Ok(Get(merged, key).value.s)
    ensures HasKey(merged, key) && !Get(merged, key).value.Str? ==> r.Err? && r.error.cls == ValidationError
  {
    var v := Get(merged, key);
    if v.None? then Ok(default)
    else if v.value.Str? then Ok(v.value.s)
    else Err(Exc(ValidationError, key + ": Input should be a valid string"))
  }

  /**
    `load_settings(config_path=...)`, given the environment map `base` and
    the file reader `loadFile` (`load_file_config`, which maps the path it is
    given to the file's map): reads the file `ConfigSource` picks, merges it
    over the environment, builds the tool toggles and the extra fields, and
    validates the name and log level.
  */
  method LoadSettings(base: Assoc<Value>, loadFile: Option<Value> -> Assoc<Value>, configPath: Option<Path>)
    returns (r: Result<Settings, Exc>)
    ensures var fileConfig := loadFile(ConfigSource(configPath, base));
      var merged := Loaders.Merged(base, fileConfig);
      match Loaders.ExtractFrom([], merged)
      case Err(e) => r == Err(e)
      case Ok(raw) =>
        match TogglesFrom([], raw)
        case Err(e) => r == Err(e)
        case Ok(toggles) =>
          && (StringField(merged, "APP_NAME", DefaultAppName).Err? ==> r.Err? && r.error.cls == ValidationError)
          && (StringField(merged, "LOG_LEVEL", DefaultLogLevel).Err? ==> r.Err? && r.error.cls == ValidationError)
          && (StringField(merged, "APP_NAME", DefaultAppName).Ok? && StringField(merged, "LOG_LEVEL", DefaultLogLevel).Ok? ==>
                r == Ok(Settings(
                  StringField(merged, "APP_NAME", DefaultAppName).value,
                  StringField(merged, "LOG_LEVEL", DefaultLogLevel).value,
                  toggles,
                  CoercePath(Get(fileConfig, "CONFIG_FILE")),
                  ExtractExtraFields(merged))))
  {
    var fileConfig := loadFile(if configPath.Some? then Some(Str(ToText(configPath.value))) else Get(base, "CONFIG_FILE"));
    var merged := Loaders.MergeDicts(base, fileConfig);
    var raw := Loaders.ExtractToolConfigs(merged);
    if raw.Err? {
      return Err(raw.error);
    }
    var enabledTools := BuildToolToggles(raw.value);
    if enabledTools.Err? {
      return Err(enabledTools.error);
    }
    var extra := ExtractExtraFields(merged);
    var appName := StringField(merged, "APP_NAME", DefaultAppName);
    var logLevel := StringField(merged, "LOG_LEVEL", DefaultLogLevel);
    if appName.Err? {
      return Err(appName.error);
    }
    if logLevel.Err? {
      return Err(logLevel.error);
    }
    r := Ok(Settings(appName.value, logLevel.value, enabledTools.value,
                     CoercePath(Get(fileConfig, "CONFIG_FILE")), extra));
  }

  /** Without APP_NAME and LOG_LEVEL anywhere, the name and level take their defaults. */
  lemma {:induction false} DefaultNameAndLevel(base: Assoc<Value>, fileConfig: Assoc<Value>)
    requires DistinctKeys(fileConfig)
    requires !HasKey(base, "APP_NAME") && !HasKey(fileConfig, "APP_NAME")
    requires !HasKey(base, "LOG_LEVEL") && !HasKey(fileConfig, "LOG_LEVEL")
    ensures StringField(Loaders.Merged(base, fileConfig), "APP_NAME", DefaultAppName) == Ok("AI-Assistant Hub")
    ensures StringField(Loaders.Merged(base, fileConfig), "LOG_LEVEL", DefaultLogLevel) == Ok("INFO")
  {
    Loaders.MergedGet(base, fileConfig, "APP_NAME");
    Loaders.MergedGet(base, fileConfig, "LOG_LEVEL");
  }
}
