/**
 * The configuration routes: `get_config` shows every option with the
 * secrets masked, and `save_config` validates the posted API and theme
 * settings and writes nothing unless both are acceptable.
 *
 * A posted JSON object, as the request's JSON parser hands it over, is a
 * sequence of (name, value) pairs in document order whose names are
 * distinct; a section is either such an object of string options or some
 * other JSON value.
 */
module ConfigController {
  import opened Wrappers
  import opened Text
  import opened Config
  import Validators
  import Orchestrator

  const Star := '*'
  const EmptyPayload := "配置数据不能为空"

  /** An option name that holds a secret: it contains "key", whatever its case. */
  predicate IsSecretKey(key: string)
  {
    Contains(Lower(key), "key")
  }

  /**
   * A secret as `get_config` shows it: longer than 8 characters, its first
   * and last four characters around stars; otherwise stars only. The length
   * never changes.
   */
  function MaskValue(value: string): (r: string)
    ensures |r| == |value|
    ensures |value| > 8 ==> r[..4] == value[..4] && r[|r| - 4..] == value[|value| - 4..]
    ensures |value| > 8 ==> forall i :: 4 <= i < |r| - 4 ==> r[i] == Star
    ensures |value| <= 8 ==> forall i :: 0 <= i < |r| ==> r[i] == Star
  {
    if |value| > 8 then value[..4] + Repeat(Star, |value| - 8) + value[|value| - 4..]
    else Repeat(Star, |value|)
  }

  /**
   * The mask depends on nothing but the length and the four characters at
   * each end: two secrets that agree there look the same.
   */
  lemma MaskHidesMiddle(v: string, w: string)
    requires |v| == |w|
    requires |v| > 8 ==> v[..4] == w[..4] && v[|v| - 4..] == w[|w| - 4..]
    ensures MaskValue(v) == MaskValue(w)
  {
    var a := MaskValue(v);
    var b := MaskValue(w);
    forall i | 0 <= i < |a|
      ensures a[i] == b[i]
    {
      if |v| > 8 {
        if i < 4 {
          assert a[i] == a[..4][i] && b[i] == b[..4][i];
        } else if i >= |a| - 4 {
          assert a[i] == a[|a| - 4..][i - (|a| - 4)] && b[i] == b[|b| - 4..][i - (|b| - 4)];
        }
      }
    }
  }

  /** What `get_config` shows for one option: a non-empty secret masked, anything else as it is. */
  function Shown(key: string, value: string): (r: string)
    ensures |r| == |value|
  {
    if IsSecretKey(key) && value != [] then MaskValue(value) else value
  }

  function MaskSection(values: Section): Section
  {
    map k | k in values :: Shown(k, values[k])
  }

  /** The configuration as `get_config` returns it. */
  function MaskAll(all: Ini): Ini
  {
    map s | s in all :: MaskSection(all[s])
  }

  /**
   * The masked configuration has exactly the sections and options of the
   * original, every value keeps its length, and only non-empty secrets change.
   */
  lemma MaskKeepsShape(all: Ini)
    ensures MaskAll(all).Keys == all.Keys
    ensures forall s :: s in all ==> MaskAll(all)[s].Keys == all[s].Keys
    ensures forall s, k :: s in all && k in all[s] ==> |MaskAll(all)[s][k]| == |all[s][k]|
    ensures forall s, k :: s in all && k in all[s] && (!IsSecretKey(k) || all[s][k] == []) ==> MaskAll(all)[s][k] == all[s][k]
  {
  }

  /** `get_config`: copy every section, option by option, masking the secrets. */
  method GetConfig(all: Ini) returns (safe: Ini)
    ensures safe == MaskAll(all)
  {
    safe := map[];
    var sections := all.Keys;
    while sections != {}
      invariant sections <= all.Keys
      invariant safe.Keys == all.Keys - sections
      invariant forall s :: s in safe ==> safe[s] == MaskSection(all[s])
      decreases sections
    {
      var section :| section in sections;
      var values := all[section];
      var masked: Section := map[];
      var keys := values.Keys;
      while keys != {}
        invariant keys <= values.Keys
        invariant masked.Keys == values.Keys - keys
        invariant forall k :: k in masked ==> masked[k] == Shown(k, values[k])
        decreases keys
      {
        var key :| key in keys;
        var value := values[key];
        if IsSecretKey(key) && value != [] {
          if |value| > 8 {
            masked := masked[key := value[..4] + Repeat(Star, |value| - 8) + value[|value| - 4..]];
          } else {
            masked := masked[key := Repeat(Star, |value|)];
          }
        } else {
          masked := masked[key := value];
        }
        keys := keys - {key};
      }
      assert masked == MaskSection(values);
      safe := safe[section := masked];
      sections := sections - {section};
    }
    assert safe.Keys == MaskAll(all).Keys;
  }

  /** No name occurs twice: a parsed JSON object keeps one value per name. */
  predicate DistinctNames<V>(d: seq<(string, V)>)
  {
    forall i, j :: 0 <= i < j < |d| ==> d[i].0 != d[j].0
  }

  /** A parsed JSON object whose values are strings, in document order. */
  type Object = f: seq<(string, string)> | DistinctNames(f)

  /** A posted section: an object of string options, or any other JSON value. */
  datatype Part = Fields(fields: Object) | NotDict

  /** The posted JSON object. */
  type Payload = d: seq<(string, Part)> | DistinctNames(d)

  /**
   * `d.get(key)`: found exactly when some pair is named `key`, and then,
   * names being distinct, with that pair's value.
   */
  function Lookup<V>(d: seq<(string, V)>, key: string): (r: Option<V>)
    ensures r.Some? <==> exists i :: 0 <= i < |d| && d[i].0 == key
    ensures r.Some? ==> exists i :: 0 <= i < |d| && d[i] == (key, r.value)
    ensures DistinctNames(d) ==> forall i :: 0 <= i < |d| && d[i].0 == key ==> r == Some(d[i].1)
  {
    if d == [] then None
    else if d[0].0 == key then Some(d[0].1)
    else
      var r := Lookup(d[1..], key);
      assert forall i :: 1 <= i < |d| ==> d[i] == d[1..][i - 1];
      r
  }

  /** `options.get(key, '')` */
  function Get(options: seq<(string, string)>, key: string): string
  {
    match Lookup(options, key)
    case Some(v) => v
    case None => ""
  }

  /** `data.get(name, {})` as an object: `None` when it is some other value, whose `.get` raises. */
  function Options(data: Payload, name: string): Option<seq<(string, string)>>
  {
    match Lookup<Part>(data, name)
    case None => Some([])
    case Some(NotDict) => None
    case Some(Fields(fields)) => Some(fields)
  }

  /**
   * The API part of the check: nothing unless `api.type` is non-empty, then
   * `validate_api_config` on the type's section (missing options are empty).
   * `None` is the exception raised when a section is not an object.
   */
  function ApiErrors(data: Payload): Option<seq<string>>
  {
    match Options(data, "api")
    case None => None
    case Some(api) =>
      var apiType := Get(api, "type");
      if apiType == [] then Some([])
      else
        match Options(data, apiType)
        case None => None
        case Some(c) => Some(Validators.ValidateApiConfig(apiType, Get(c, "api_url"), Get(c, "api_key"), Get(c, "model")))
  }

  /** The theme part of the check: nothing unless `ui.default_theme` is non-empty. */
  function ThemeErrors(data: Payload): Option<seq<string>>
  {
    match Options(data, "ui")
    case None => None
    case Some(ui) =>
      var theme := Get(ui, "default_theme");
      if theme == [] then Some([]) else Some(Validators.ValidateTheme(theme))
  }

  /** The answer of `save_config`: 400 with the messages, 200 after saving, or 500 when an exception was caught. */
  datatype SaveOutcome = Rejected(errors: seq<string>) | Saved | Failed

  function SaveVerdict(data: Payload): (r: SaveOutcome)
    ensures data == [] ==> r == Rejected([EmptyPayload])
    ensures r.Rejected? ==> r.errors != []
    ensures r.Saved? ==> ApiErrors(data) == Some([]) && ThemeErrors(data) == Some([])
  {
    if data == [] then Rejected([EmptyPayload])
    else
      match ApiErrors(data)
      case None => Failed
      case Some(a) =>
        match ThemeErrors(data)
        case None => Failed
        case Some(t) => if a + t != [] then Rejected(a + t) else Saved
  }

  /** `save_config` on every option of a section, in order. */
  function WriteFields(ini: Ini, section: string, fields: seq<(string, string)>): Ini
  {
    if fields == [] then ini
    else
      var (key, value) := fields[|fields| - 1];
      Set(WriteFields(ini, section, fields[..|fields| - 1]), section, key, value)
  }

  /** Every object section of the payload written, in order; other sections are skipped. */
  function WriteAll(ini: Ini, data: seq<(string, Part)>): Ini
  {
    if data == [] then ini
    else
      var prev := WriteAll(ini, data[..|data| - 1]);
      match data[|data| - 1].1
      case Fields(fields) => WriteFields(prev, data[|data| - 1].0, fields)
      case NotDict => prev
  }

  /** The last value written for the option `key` (option names are case-insensitive), if any. */
  function LastWritten(fields: seq<(string, string)>, key: string): (r: Option<string>)
    ensures r.Some? ==> exists i :: 0 <= i < |fields| && Lower(fields[i].0) == Lower(key) && fields[i].1 == r.value
    ensures r.None? ==> forall i :: 0 <= i < |fields| ==> Lower(fields[i].0) != Lower(key)
  {
    if fields == [] then None
    else if Lower(fields[|fields| - 1].0) == Lower(key) then Some(fields[|fields| - 1].1)
    else
      var r := LastWritten(fields[..|fields| - 1], key);
      assert forall i :: 0 <= i < |fields| - 1 ==> fields[..|fields| - 1][i] == fields[i];
      r
  }

  /** The options posted for `section`, over all object sections of that name, in order. */
  function SectionWrites(data: seq<(string, Part)>, section: string): seq<(string, string)>
  {
    if data == [] then []
    else
      var last := data[|data| - 1];
      SectionWrites(data[..|data| - 1], section) + (if last.0 == section && last.1.Fields? then last.1.fields else [])
  }

  /** In a parsed object, the options posted for `section` are those of the one object of that name. */
  lemma {:induction false} SectionWritesOfObject(data: seq<(string, Part)>, section: string)
    requires DistinctNames(data)
    ensures SectionWrites(data, section) == match Lookup<Part>(data, section) case Some(Fields(f)) => f case _ => []
    decreases |data|
  {
    if data != [] {
      var init := data[..|data| - 1];
      var last := data[|data| - 1];
      assert forall i :: 0 <= i < |init| ==> init[i] == data[i];
      assert DistinctNames(init);
      SectionWritesOfObject(init, section);
      if last.0 != section {
        assert SectionWrites(data, section) == SectionWrites(init, section);
        assert Lookup<Part>(data, section) == Lookup<Part>(init, section);
      } else {
        assert Lookup<Part>(init, section) == None;
        assert Lookup<Part>(data, section) == Some(last.1);
      }
    }
  }

  lemma {:induction false} LastWrittenAppend(a: seq<(string, string)>, b: seq<(string, string)>, key: string)
    ensures LastWritten(a + b, key) == if LastWritten(b, key).Some? then LastWritten(b, key) else LastWritten(a, key)
    decreases |b|
  {
    if b == [] {
      assert a + b == a;
    } else {
      assert (a + b)[..|a + b| - 1] == a + b[..|b| - 1];
      LastWrittenAppend(a, b[..|b| - 1], key);
    }
  }

  /** After writing a section's options, each option holds the last value written for it; nothing else changes. */
  lemma {:induction false} WriteFieldsStored(ini: Ini, section: string, fields: seq<(string, string)>, s: string, k: string)
    ensures Stored(WriteFields(ini, section, fields), s, k) ==
      if s == section && LastWritten(fields, k).Some? then LastWritten(fields, k) else Stored(ini, s, k)
    decreases |fields|
  {
    if fields != [] {
      WriteFieldsStored(ini, section, fields[..|fields| - 1], s, k);
    }
  }

  /**
   * After saving, each option holds the last value posted for it, and an
   * option that was not posted keeps its value.
   */
  lemma {:induction false} WriteAllStored(ini: Ini, data: seq<(string, Part)>, s: string, k: string)
    ensures Stored(WriteAll(ini, data), s, k) ==
      if LastWritten(SectionWrites(data, s), k).Some? then LastWritten(SectionWrites(data, s), k) else Stored(ini, s, k)
    decreases |data|
  {
    if data != [] {
      var init := data[..|data| - 1];
      var last := data[|data| - 1];
      WriteAllStored(ini, init, s, k);
      var added := if last.0 == s && last.1.Fields? then last.1.fields else [];
      LastWrittenAppend(SectionWrites(init, s), added, k);
      if last.1.Fields? {
        WriteFieldsStored(WriteAll(ini, init), last.0, last.1.fields, s, k);
      }
    }
  }

  /** A URL with an http or https scheme is not blank. */
  lemma SchemeNotBlank(url: string)
    requires Validators.HasHttpScheme(url)
    ensures !IsBlank(url)
  {
    assert Lower(url)[0] == 'h';
    assert !IsSpace(url[0]);
  }

  /** What `validate_api_config` accepts, `APIConfig.validate` accepts too. */
  lemma ValidatedApiConfigIsValid(apiType: string, apiUrl: string, apiKey: string, model: string)
    requires Validators.ValidateApiConfig(apiType, apiUrl, apiKey, model) == []
    ensures APIConfig(apiType, apiUrl, apiKey, model).Validate() == []
  {
    Validators.ApiConfigAcceptsIff(apiType, apiUrl, apiKey, model);
    SchemeNotBlank(apiUrl);
    assert apiType in Validators.KeyedApiTypes ==> !IsBlank(apiKey) by {
      if apiType in Validators.KeyedApiTypes {
        assert Validators.ValidateApiKey(apiKey, apiType).Pass?;
      }
    }
    assert !IsBlank(model) by {
      assert |Strip(model)| >= 3;
    }
  }

  /**
   * A payload that is saved carries an acceptable API configuration (when
   * it names a type) and an acceptable theme (when it names one).
   */
  lemma SavedIsValid(data: Payload)
    requires SaveVerdict(data).Saved?
    ensures Options(data, "api").Some? && Get(Options(data, "api").value, "type") != [] ==>
      var apiType := Get(Options(data, "api").value, "type");
      var c := Options(data, apiType);
      && apiType in Validators.ApiTypes
      && c.Some?
      && APIConfig(apiType, Get(c.value, "api_url"), Get(c.value, "api_key"), Get(c.value, "model")).Validate() == []
    ensures Options(data, "ui").Some? && Get(Options(data, "ui").value, "default_theme") != [] ==>
      Get(Options(data, "ui").value, "default_theme") in Validators.Themes
  {
    var api := Options(data, "api");
    if api.Some? && Get(api.value, "type") != [] {
      var apiType := Get(api.value, "type");
      var c := Options(data, apiType).value;
      Validators.ApiConfigAcceptsIff(apiType, Get(c, "api_url"), Get(c, "api_key"), Get(c, "model"));
      ValidatedApiConfigIsValid(apiType, Get(c, "api_url"), Get(c, "api_key"), Get(c, "model"));
    }
  }

  /** Reading the file just written back into the parser changes nothing. */
  lemma MergeSelf(ini: Ini)
    ensures Merge(ini, ini) == ini
  {
    var m := Merge(ini, ini);
    assert m.Keys == ini.Keys;
    forall s | s in ini
      ensures m[s] == ini[s]
    {
      assert ini[s] + ini[s] == ini[s];
    }
  }

  /**
   * `save_config`: an empty payload and a payload with validation errors are
   * answered 400 and nothing is written; otherwise every option of every
   * object section is written in order and the AI service re-reads its
   * configuration from the file just written.
   */
  method SaveConfig(manager: ConfigManager, service: Orchestrator.AIService, data: Payload, env: Env)
    returns (outcome: SaveOutcome)
    modifies manager, service
    ensures outcome == SaveVerdict(data)
    ensures outcome.Saved? ==>
      manager.config == WriteAll(old(manager.config), data) && service.config == GetApiConfig(manager.config, env)
    ensures !outcome.Saved? ==> manager.config == old(manager.config) && service.config == old(service.config)
  {
    if data == [] {
      return Rejected([EmptyPayload]);
    }
    var checked := CheckPayload(data);
    if checked.None? {
      return Failed;
    }
    var errors := checked.value;
    if errors != [] {
      return Rejected(errors);
    }
    WriteSections(manager, data);
    MergeSelf(manager.config);
    service.ReloadConfig(manager, Some(manager.config), env);
    outcome := Saved;
  }

  /**
   * The validation part of `save_config`: the API errors, then the theme
   * errors; `None` when reading a section that is not an object raises.
   */
  method CheckPayload(data: Payload) returns (errors: Option<seq<string>>)
    ensures errors.Some? <==> ApiErrors(data).Some? && ThemeErrors(data).Some?
    ensures errors.Some? ==> errors.value == ApiErrors(data).value + ThemeErrors(data).value
  {
    var apiErrors := CheckApi(data);
    if apiErrors.None? {
      return None;
    }
    var themeErrors := CheckTheme(data);
    if themeErrors.None? {
      return None;
    }
    return Some(apiErrors.value + themeErrors.value);
  }

  /** The API check of `save_config`. */
  method CheckApi(data: Payload) returns (errors: Option<seq<string>>)
    ensures errors == ApiErrors(data)
  {
    var api := Options(data, "api");
    if api.None? {
      return None;
    }
    var apiType := Get(api.value, "type");
    if apiType == [] {
      return Some([]);
    }
    var options := Options(data, apiType);
    if options.None? {
      return None;
    }
    var c := options.value;
    return Some(Validators.ValidateApiConfig(apiType, Get(c, "api_url"), Get(c, "api_key"), Get(c, "model")));
  }

  /** The theme check of `save_config`. */
  method CheckTheme(data: Payload) returns (errors: Option<seq<string>>)
    ensures errors == ThemeErrors(data)
  {
    var ui := Options(data, "ui");
    if ui.None? {
      return None;
    }
    var theme := Get(ui.value, "default_theme");
    if theme == [] {
      return Some([]);
    }
    return Some(Validators.ValidateTheme(theme));
  }

  /** The write loop of `save_config`: `config_manager.save_config` for each option of each object section. */
  method WriteSections(manager: ConfigManager, data: Payload)
    modifies manager
    ensures manager.config == WriteAll(old(manager.config), data)
  {
    var i := 0;
    while i < |data|
      invariant 0 <= i <= |data|
      invariant manager.config == WriteAll(old(manager.config), data[..i])
    {
      var (section, values) := data[i];
      assert data[..i + 1][..i] == data[..i];
      if values.Fields? {
        var fields := values.fields;
        var j := 0;
        while j < |fields|
          invariant 0 <= j <= |fields|
          invariant manager.config == WriteFields(WriteAll(old(manager.config), data[..i]), section, fields[..j])
        {
          assert fields[..j + 1][..j] == fields[..j];
          manager.SaveConfig(section, fields[j].0, fields[j].1);
          j := j + 1;
        }
        assert fields[..j] == fields;
      }
      i := i + 1;
    }
    assert data[..i] == data;
  }
}
