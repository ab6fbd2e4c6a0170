/**
 * The configuration manager: an INI parser state (sections of options),
 * environment-variable overrides on every read, typed views of the `api`,
 * `ui`, `logging` and `server` sections, and the save/load/validate
 * operations that change or inspect the parser state.
 *
 * The parser state is `Ini`: section name to (option name to value). Option
 * names are stored lower-cased, as the parser's `optionxform` does; section
 * names are case-sensitive. The process environment is passed in as `Env`.
 */
module Config {
  import opened Wrappers
  import opened Text
  import opened Exceptions
  import Validators

  type Section = map<string, string>
  type Ini = map<string, Section>
  type Env = map<string, string>

  /** The `APIConfig` record: which backend to use and how to reach it. */
  datatype APIConfig = APIConfig(apiType: string, apiUrl: string, apiKey: string, model: string)
  {
    /**
     * `APIConfig.validate`: URL and model must be non-blank, and the key too
     * for the key-bearing types; one message per missing field, in that order.
     */
    function Validate(): (r: seq<string>)
      ensures r == [] <==>
        !IsBlank(apiUrl) && (apiType in Validators.KeyedApiTypes ==> !IsBlank(apiKey)) && !IsBlank(model)
      ensures |r| <= 3
    {
      var urlError := if IsBlank(apiUrl) then [apiType + " API地址不能为空"] else [];
      var keyError := if apiType in Validators.KeyedApiTypes && IsBlank(apiKey) then [apiType + " API密钥不能为空"] else [];
      var modelError := if IsBlank(model) then [apiType + " 模型名称不能为空"] else [];
      assert |urlError + keyError + modelError| == |urlError| + |keyError| + |modelError|;
      urlError + keyError + modelError
    }
  }

  datatype UIConfig = UIConfig(defaultTheme: string)
  datatype LoggingConfig = LoggingConfig(level: string, file: string, maxSize: string, backupCount: int)
  datatype ServerConfig = ServerConfig(host: string, port: int, debug: bool)

  /** The sections `validate_config` requires. */
  const RequiredSections: seq<string> := ["api", "ui", "logging", "server"]

  const Http := "http://"
  const Https := "https://"
  const DeepSeekUrl := Https + "api.deepseek.com/v1/chat/completions"
  const OpenRouterUrl := Https + "openrouter.ai/api/v1/chat/completions"
  const OllamaUrl := Http + "localhost:11434/api/chat"
  const OpenRouterModel := "moonshotai/" + "moonlight-16b-a3b-instruct:free"

  /** The file `create_default_config` writes, as parsed. */
  const DefaultIni: Ini := map[
    "api" := map["type" := "openrouter"],
    "deepseek" := map["api_url" := DeepSeekUrl, "api_key" := "", "model" := "deepseek-chat"],
    "openrouter" := map["api_url" := OpenRouterUrl, "api_key" := "", "model" := OpenRouterModel],
    "ollama" := map["api_url" := OllamaUrl, "model" := "qwen2.5-coder:14b"],
    "ui" := map["default_theme" := "dark"],
    "logging" := map["level" := "INFO", "file" := "logs/app.log", "max_size" := "10MB", "backup_count" := "5"],
    "server" := map["host" := "0.0.0.0", "port" := "5000", "debug" := "false"]
  ]

  /** The environment variable that overrides an option: `SECTION_KEY`, upper-cased. */
  function EnvKey(section: string, key: string): string
  {
    Upper(section) + "_" + Upper(key)
  }

  /** The environment leaves the option alone: the variable is unset or empty. */
  predicate NoOverride(env: Env, section: string, key: string)
  {
    EnvKey(section, key) !in env || env[EnvKey(section, key)] == []
  }

  /** The parser's value of an option, if the section and the option exist. */
  function Stored(ini: Ini, section: string, key: string): Option<string>
  {
    if section in ini && Lower(key) in ini[section] then Some(ini[section][Lower(key)]) else None
  }

  /**
   * `ConfigManager.get_config_value`: a non-empty environment variable wins,
   * then the parser's value, then the fallback.
   */
  function GetConfigValue(ini: Ini, env: Env, section: string, key: string, fallback: string): (r: string)
    ensures !NoOverride(env, section, key) ==> r == env[EnvKey(section, key)] && r != []
    ensures NoOverride(env, section, key) && Stored(ini, section, key).Some? ==> r == Stored(ini, section, key).value
    ensures NoOverride(env, section, key) && Stored(ini, section, key).None? ==> r == fallback
  {
    var k := EnvKey(section, key);
    if k in env && env[k] != [] then env[k]
    else if section in ini && Lower(key) in ini[section] then ini[section][Lower(key)]
    else fallback
  }

  /** `ConfigManager.get_api_config`: the type (default openrouter) selects the section the rest is read from. */
  function GetApiConfig(ini: Ini, env: Env): APIConfig
  {
    var apiType := GetConfigValue(ini, env, "api", "type", "openrouter");
    APIConfig(apiType,
              GetConfigValue(ini, env, apiType, "api_url", ""),
              GetConfigValue(ini, env, apiType, "api_key", ""),
              GetConfigValue(ini, env, apiType, "model", ""))
  }

  /** `ConfigManager.get_ui_config` */
  function GetUiConfig(ini: Ini, env: Env): UIConfig
  {
    UIConfig(GetConfigValue(ini, env, "ui", "default_theme", "dark"))
  }

  /**
   * The `ValueError` `int()` raises on a string that is not an integer
   * literal; the string is put between single quotes, which is its `repr`
   * only when it holds no quote, backslash or control character.
   */
  function IntError(s: string): Exc
  {
    PlainExc("invalid literal for int() with base 10: '" + s + "'")
  }

  /** `ConfigManager.get_logging_config`: fails when the backup count is not an integer. */
  function GetLoggingConfig(ini: Ini, env: Env): (r: Result<LoggingConfig, Exc>)
    ensures r.Ok? <==> ParseInt(GetConfigValue(ini, env, "logging", "backup_count", "5")).Some?
  {
    var count := GetConfigValue(ini, env, "logging", "backup_count", "5");
    match ParseInt(count)
    case None => Err(IntError(count))
    case Some(n) =>
      Ok(LoggingConfig(GetConfigValue(ini, env, "logging", "level", "INFO"),
                       GetConfigValue(ini, env, "logging", "file", "logs/app.log"),
                       GetConfigValue(ini, env, "logging", "max_size", "10MB"),
                       n))
  }

  /**
   * `ConfigManager.get_server_config`: host falls back to 127.0.0.1, port to
   * 5000, and debug is on exactly when the value lower-cases to "true"; a port
   * that is not an integer literal raises.
   */
  function GetServerConfig(ini: Ini, env: Env): (r: Result<ServerConfig, Exc>)
    ensures r.Ok? <==> ParseInt(GetConfigValue(ini, env, "server", "port", "5000")).Some?
    ensures r.Ok? ==> (r.value.debug <==> Lower(GetConfigValue(ini, env, "server", "debug", "false")) == "true")
  {
    var port := GetConfigValue(ini, env, "server", "port", "5000");
    match ParseInt(port)
    case None => Err(IntError(port))
    case Some(n) =>
      Ok(ServerConfig(GetConfigValue(ini, env, "server", "host", "127.0.0.1"), n,
                      Lower(GetConfigValue(ini, env, "server", "debug", "false")) == "true"))
  }

  /** `add_section` when missing, then `set`: one option changes and nothing else. */
  function Set(ini: Ini, section: string, key: string, value: string): (r: Ini)
    ensures r.Keys == ini.Keys + {section}
    ensures Stored(r, section, key) == Some(value)
    ensures forall s, k {:trigger Stored(r, s, k)} :: s != section || Lower(k) != Lower(key) ==> Stored(r, s, k) == Stored(ini, s, k)
  {
    var options := if section in ini then ini[section] else map[];
    ini[section := options[Lower(key) := value]]
  }

  /** `read`/`read_string` into an existing parser: sections are merged, the file's options win. */
  function Merge(base: Ini, file: Ini): (r: Ini)
    ensures r.Keys == base.Keys + file.Keys
    ensures forall s, k {:trigger Stored(r, s, k)} :: Stored(r, s, k) == if Stored(file, s, k).Some? then Stored(file, s, k) else Stored(base, s, k)
  {
    map s | s in base.Keys + file.Keys ::
      (if s in base then base[s] else map[]) + (if s in file then file[s] else map[])
  }

  /** `save_api_config`: the type, then the three options of the type's own section. */
  function SaveApi(ini: Ini, c: APIConfig): Ini
  {
    var ini := Set(ini, "api", "type", c.apiType);
    var ini := Set(ini, c.apiType, "api_url", c.apiUrl);
    var ini := Set(ini, c.apiType, "api_key", c.apiKey);
    Set(ini, c.apiType, "model", c.model)
  }

  /** One message for a required section the parser lacks. */
  function MissingSection(ini: Ini, section: string): (r: seq<string>)
    ensures r == [] <==> section in ini
  {
    if section in ini then [] else ["缺少必需的配置节: " + section]
  }

  /** The messages for the required sections the parser lacks, in the order required. */
  function MissingSections(ini: Ini, required: seq<string>): (r: seq<string>)
    ensures |r| <= |required|
    ensures r == [] <==> forall i :: 0 <= i < |required| ==> required[i] in ini
  {
    if required == [] then []
    else MissingSections(ini, required[..|required| - 1]) + MissingSection(ini, required[|required| - 1])
  }

  /** What `validate_config` reports: the API configuration's problems, then missing sections. */
  function ConfigErrors(ini: Ini, env: Env): seq<string>
  {
    GetApiConfig(ini, env).Validate() + MissingSections(ini, RequiredSections)
  }

  /** The four required sections are present exactly when none is reported missing. */
  lemma RequiredSectionsPresent(ini: Ini)
    ensures MissingSections(ini, RequiredSections) == [] <==> "api" in ini && "ui" in ini && "logging" in ini && "server" in ini
  {
    var r := RequiredSections;
    assert r[0] == "api" && r[1] == "ui" && r[2] == "logging" && r[3] == "server" && |r| == 4;
    if "api" in ini && "ui" in ini && "logging" in ini && "server" in ini {
      forall i | 0 <= i < |r| ensures r[i] in ini {
        if i == 0 {} else if i == 1 {} else if i == 2 {} else {}
      }
    }
  }

  /** A configuration validates iff its API fields are present and all four required sections exist. */
  lemma ConfigErrorsIff(ini: Ini, env: Env)
    ensures ConfigErrors(ini, env) == [] <==>
      GetApiConfig(ini, env).Validate() == [] && "api" in ini && "ui" in ini && "logging" in ini && "server" in ini
  {
    RequiredSectionsPresent(ini);
  }

  /** Saving an option and reading it back returns the saved value, unless the environment overrides it. */
  lemma SaveThenGet(ini: Ini, env: Env, section: string, key: string, value: string, fallback: string)
    requires NoOverride(env, section, key)
    ensures GetConfigValue(Set(ini, section, key, value), env, section, key, fallback) == value
  {
  }

  /** The option names `save_api_config` and `get_api_config` use are already lower case. */
  lemma ApiOptionNames()
    ensures Lower("type") == "type" && Lower("api_url") == "api_url"
    ensures Lower("api_key") == "api_key" && Lower("model") == "model"
  {
  }

  /** `get_api_config` returns the stored type and the stored options of that type's section when nothing overrides them. */
  lemma ReadApi(ini: Ini, env: Env, c: APIConfig)
    requires NoOverride(env, "api", "type") && Stored(ini, "api", "type") == Some(c.apiType)
    requires NoOverride(env, c.apiType, "api_url") && Stored(ini, c.apiType, "api_url") == Some(c.apiUrl)
    requires NoOverride(env, c.apiType, "api_key") && Stored(ini, c.apiType, "api_key") == Some(c.apiKey)
    requires NoOverride(env, c.apiType, "model") && Stored(ini, c.apiType, "model") == Some(c.model)
    ensures GetApiConfig(ini, env) == c
  {
    assert GetConfigValue(ini, env, "api", "type", "openrouter") == c.apiType;
  }

  /** After `save_api_config` the parser holds the saved type and the three options of its section. */
  lemma SaveApiStored(ini: Ini, c: APIConfig)
    ensures Stored(SaveApi(ini, c), "api", "type") == Some(c.apiType)
    ensures Stored(SaveApi(ini, c), c.apiType, "api_url") == Some(c.apiUrl)
    ensures Stored(SaveApi(ini, c), c.apiType, "api_key") == Some(c.apiKey)
    ensures Stored(SaveApi(ini, c), c.apiType, "model") == Some(c.model)
  {
    var i1 := Set(ini, "api", "type", c.apiType);
    var i2 := Set(i1, c.apiType, "api_url", c.apiUrl);
    var i3 := Set(i2, c.apiType, "api_key", c.apiKey);
    var i4 := Set(i3, c.apiType, "model", c.model);
    ApiOptionNames();
    assert Stored(i4, "api", "type") == Some(c.apiType);
    assert Stored(i4, c.apiType, "api_url") == Some(c.apiUrl);
    assert Stored(i4, c.apiType, "api_key") == Some(c.apiKey);
    assert SaveApi(ini, c) == i4;
  }

  /** Saving an API configuration and reading it back gives the same configuration, when no variable overrides it. */
  lemma SaveApiRoundTrip(ini: Ini, env: Env, c: APIConfig)
    requires NoOverride(env, "api", "type")
    requires NoOverride(env, c.apiType, "api_url") && NoOverride(env, c.apiType, "api_key") && NoOverride(env, c.apiType, "model")
    ensures GetApiConfig(SaveApi(ini, c), env) == c
  {
    SaveApiStored(ini, c);
    ReadApi(SaveApi(ini, c), env, c);
  }

  lemma DefaultApiStored()
    ensures Stored(DefaultIni, "api", "type") == Some("openrouter")
    ensures Stored(DefaultIni, "openrouter", "api_key") == Some("")
  {
    ApiOptionNames();
  }

  lemma DefaultOpenRouterStored()
    ensures Stored(DefaultIni, "openrouter", "api_url") == Some(OpenRouterUrl)
    ensures Stored(DefaultIni, "openrouter", "model") == Some(OpenRouterModel)
  {
    ApiOptionNames();
  }

  /** An unset variable never overrides. */
  lemma EmptyEnv(section: string, key: string)
    ensures NoOverride(map[], section, key)
  {
  }

  /** A key-bearing configuration whose only blank field is the key reports exactly the missing key. */
  lemma OnlyKeyMissing(c: APIConfig)
    requires c.apiType in Validators.KeyedApiTypes && IsBlank(c.apiKey) && !IsBlank(c.apiUrl) && !IsBlank(c.model)
    ensures c.Validate() == [c.apiType + " API密钥不能为空"]
  {
    var e := [c.apiType + " API密钥不能为空"];
    ValidateParts(c, false, true, false);
    assert [] + e + [] == e;
  }

  /** The messages come in field order: URL, then key, then model. */
  lemma ValidateMessages(c: APIConfig)
    ensures IsBlank(c.apiUrl) ==> c.Validate()[0] == c.apiType + " API地址不能为空"
    ensures !IsBlank(c.apiUrl) && c.apiType in Validators.KeyedApiTypes && IsBlank(c.apiKey) ==>
      c.Validate()[0] == c.apiType + " API密钥不能为空"
    ensures IsBlank(c.model) ==> c.Validate()[|c.Validate()| - 1] == c.apiType + " 模型名称不能为空"
  {
    var noUrl := IsBlank(c.apiUrl);
    var noKey := c.apiType in Validators.KeyedApiTypes && IsBlank(c.apiKey);
    var noModel := IsBlank(c.model);
    ValidateParts(c, noUrl, noKey, noModel);
  }

  /** `validate()` one field at a time, given which fields are missing. */
  lemma ValidateParts(c: APIConfig, noUrl: bool, noKey: bool, noModel: bool)
    requires noUrl == IsBlank(c.apiUrl) && noModel == IsBlank(c.model)
    requires noKey == (c.apiType in Validators.KeyedApiTypes && IsBlank(c.apiKey))
    ensures c.Validate() ==
      (if noUrl then [c.apiType + " API地址不能为空"] else [])
      + (if noKey then [c.apiType + " API密钥不能为空"] else [])
      + (if noModel then [c.apiType + " 模型名称不能为空"] else [])
  {
  }

  /** The freshly created default file selects OpenRouter, with an empty key. */
  lemma DefaultApiConfig()
    ensures GetApiConfig(DefaultIni, map[]) == APIConfig("openrouter", OpenRouterUrl, "", OpenRouterModel)
  {
    DefaultApiStored();
    DefaultOpenRouterStored();
    EmptyEnv("api", "type");
    EmptyEnv("openrouter", "api_url");
    EmptyEnv("openrouter", "api_key");
    EmptyEnv("openrouter", "model");
    ReadApi(DefaultIni, map[], APIConfig("openrouter", OpenRouterUrl, "", OpenRouterModel));
  }

  /** The default configuration does not validate until a key is set: exactly the missing key is reported. */
  lemma DefaultConfigNeedsKey()
    ensures ConfigErrors(DefaultIni, map[]) == ["openrouter" + " API密钥不能为空"]
  {
    DefaultApiConfig();
    var c := APIConfig("openrouter", OpenRouterUrl, "", OpenRouterModel);
    DefaultApiNonBlank(c);
    OnlyKeyMissing(c);
    DefaultSections();
    ErrorsOf(DefaultIni, map[], c);
  }

  lemma ErrorsOf(ini: Ini, env: Env, c: APIConfig)
    requires GetApiConfig(ini, env) == c && MissingSections(ini, RequiredSections) == []
    ensures ConfigErrors(ini, env) == c.Validate()
  {
  }

  lemma DefaultApiNonBlank(c: APIConfig)
    requires c == APIConfig("openrouter", OpenRouterUrl, "", OpenRouterModel)
    ensures c.apiType in Validators.KeyedApiTypes && IsBlank(c.apiKey) && !IsBlank(c.apiUrl) && !IsBlank(c.model)
  {
    assert OpenRouterUrl[0] == 'h' && OpenRouterModel[0] == 'm';
    assert Strip("") == [];
  }

  lemma DefaultSections()
    ensures MissingSections(DefaultIni, RequiredSections) == []
  {
    RequiredSectionsPresent(DefaultIni);
  }

  /** `int(str(p))` is `p`: a saved non-negative port is read back as that number. */
  lemma SavedPortReadBack(ini: Ini, env: Env, p: nat)
    requires NoOverride(env, "server", "port")
    ensures var r := GetServerConfig(Set(ini, "server", "port", NatToDecimal(p)), env); r.Ok? && r.value.port == p
  {
    SaveThenGet(ini, env, "server", "port", NatToDecimal(p), "5000");
    DecimalRoundTrip(p);
  }

  /** With no section and no variable, an option reads as its fallback. */
  lemma UnsetReadsFallback(ini: Ini, section: string, key: string, fallback: string)
    requires section !in ini
    ensures GetConfigValue(ini, map[], section, key, fallback) == fallback
  {
  }

  lemma DefaultPortDecimal()
    ensures NatToDecimal(5000) == "5000"
  {
  }

  lemma DefaultPortParses()
    ensures ParseInt("5000") == Some(5000)
  {
    DecimalRoundTrip(5000);
    DefaultPortDecimal();
  }

  lemma FalseIsNotTrue()
    ensures Lower("false") != "true"
  {
    assert |Lower("false")| == 5;
  }

  /** Without a server section or overrides: host 127.0.0.1 (not the record's 0.0.0.0), port 5000, debug off. */
  lemma ServerDefaults(ini: Ini)
    requires "server" !in ini
    ensures GetServerConfig(ini, map[]) == Ok(ServerConfig("127.0.0.1", 5000, false))
  {
    UnsetReadsFallback(ini, "server", "port", "5000");
    UnsetReadsFallback(ini, "server", "host", "127.0.0.1");
    UnsetReadsFallback(ini, "server", "debug", "false");
    DefaultPortParses();
    FalseIsNotTrue();
  }

  /** The parser state of the single `ConfigManager` instance. */
  class ConfigManager {
    var config: Ini

    /** A new manager loads the file, or the default configuration when there is none. */
    constructor(file: Option<Ini>)
      ensures config == Merge(map[], if file.Some? then file.value else DefaultIni)
    {
      config := Merge(map[], if file.Some? then file.value else DefaultIni);
    }

    /** `load_config`: read the file into the parser, or create the default one when it does not exist. */
    method LoadConfig(file: Option<Ini>)
      modifies this
      ensures config == Merge(old(config), if file.Some? then file.value else DefaultIni)
    {
      if file.Some? {
        config := Merge(config, file.value);
      } else {
        CreateDefaultConfig();
      }
    }

    /** `create_default_config`: the default text is read into the parser (writing it to disk is I/O). */
    method CreateDefaultConfig()
      modifies this
      ensures config == Merge(old(config), DefaultIni)
    {
      config := Merge(config, DefaultIni);
    }

    /** `save_config`: set one option, creating its section if needed. */
    method SaveConfig(section: string, key: string, value: string)
      modifies this
      ensures config == Set(old(config), section, key, value)
    {
      config := Set(config, section, key, value);
    }

    /** `save_api_config`: four `save_config` calls. */
    method SaveApiConfig(c: APIConfig)
      modifies this
      ensures config == SaveApi(old(config), c)
    {
      SaveConfig("api", "type", c.apiType);
      SaveConfig(c.apiType, "api_url", c.apiUrl);
      SaveConfig(c.apiType, "api_key", c.apiKey);
      SaveConfig(c.apiType, "model", c.model);
    }

    /** `validate_config`: the API configuration's errors, then one per missing required section. */
    method ValidateConfig(env: Env) returns (errors: seq<string>)
      ensures errors == ConfigErrors(config, env)
    {
      var ini := config;
      var required := RequiredSections;
      var missing := [];
      var i := 0;
      while i < |required|
        invariant 0 <= i <= |required|
        invariant missing == MissingSections(ini, required[..i])
      {
        var section := required[i];
        if section !in ini {
          missing := missing + ["缺少必需的配置节: " + section];
        }
        assert required[..i + 1][..i] == required[..i];
        i := i + 1;
      }
      assert required[..i] == required;
      errors := GetApiConfig(ini, env).Validate() + missing;
    }
  }
}
