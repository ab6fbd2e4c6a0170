/**
 * Input validators. Each `Validator` check is a function returning `Pass` or
 * `Fail(message)`, where the message is the text of the `ValidationError` the
 * source raises; `ConfigValidator` collects the messages of every failing
 * check instead of stopping at the first.
 */
module Validators {
  import opened Wrappers
  import opened Text

  const ApiTypes: seq<string> := ["deepseek", "openrouter", "ollama"]
  const KeyedApiTypes: seq<string> := ["deepseek", "openrouter"]
  const HttpMethods: seq<string> := ["GET", "POST", "PUT", "DELETE", "HEAD", "OPTIONS", "PATCH"]
  const Themes: seq<string> := ["light", "dark"]
  const DefaultFileLimit: nat := 1000000
  const DefaultTextLimit: nat := 10000

  /** `Validator.validate_required`: fails exactly on an empty or white-space-only value. */
  function ValidateRequired(value: string, fieldName: string): (r: Outcome<string>)
    ensures r.Fail? <==> IsBlank(value)
    ensures r.Fail? ==> r.error == fieldName + "不能为空"
  {
    if IsBlank(value) then Fail(fieldName + "不能为空") else Pass
  }

  /** The case-insensitive `^https?://` prefix of the URL pattern. */
  predicate HasHttpScheme(url: string)
  {
    StartsWith(Lower(url), "http://") || StartsWith(Lower(url), "https://")
  }

  /** `Validator.validate_url`, with the host/port/path part of the pattern left out (see README). */
  function ValidateUrl(url: string, fieldName: string): (r: Outcome<string>)
    ensures url == [] ==> r == Fail(fieldName + "不能为空")
    ensures url != [] && !HasHttpScheme(url) ==> r == Fail(fieldName + "格式不正确")
    ensures r.Pass? <==> HasHttpScheme(url)
  {
    if url == [] then Fail(fieldName + "不能为空")
    else if !HasHttpScheme(url) then Fail(fieldName + "格式不正确")
    else Pass
  }

  /** `Validator.validate_api_key`: non-blank, at least 10 characters once stripped, and the vendor's prefix. */
  function ValidateApiKey(apiKey: string, apiType: string): (r: Outcome<string>)
    ensures r.Pass? <==>
      && !IsBlank(apiKey) && |Strip(apiKey)| >= 10
      && (apiType == "deepseek" ==> StartsWith(apiKey, "sk-"))
      && (apiType == "openrouter" ==> StartsWith(apiKey, "sk-or-"))
    ensures IsBlank(apiKey) ==> r == Fail(apiType + " API密钥不能为空")
  {
    if IsBlank(apiKey) then Fail(apiType + " API密钥不能为空")
    else if |Strip(apiKey)| < 10 then Fail(apiType + " API密钥长度不足")
    else if apiType == "deepseek" && !StartsWith(apiKey, "sk-") then Fail("DeepSeek API密钥应以'sk-'开头")
    else if apiType == "openrouter" && !StartsWith(apiKey, "sk-or-") then Fail("OpenRouter API密钥应以'sk-or-'开头")
    else Pass
  }

  /** `Validator.validate_model_name`: non-blank and at least 3 characters once stripped. */
  function ValidateModelName(model: string, fieldName: string): (r: Outcome<string>)
    ensures r.Pass? <==> |Strip(model)| >= 3
    ensures IsBlank(model) ==> r == Fail(fieldName + "不能为空")
  {
    if IsBlank(model) then Fail(fieldName + "不能为空")
    else if |Strip(model)| < 3 then Fail(fieldName + "长度不足")
    else Pass
  }

  /** `Validator.validate_api_type` */
  function ValidateApiType(apiType: string): (r: Outcome<string>)
    ensures r.Pass? <==> apiType in ApiTypes
  {
    if apiType in ApiTypes then Pass else Fail("API类型必须是以下之一: " + JoinWith(ApiTypes, ", "))
  }

  /** `Validator.validate_file_content`: non-empty and at most `maxLength` characters. */
  function ValidateFileContent(content: string, maxLength: nat): (r: Outcome<string>)
    ensures r.Pass? <==> 0 < |content| <= maxLength
    ensures content == [] ==> r == Fail("文件内容不能为空")
  {
    if content == [] then Fail("文件内容不能为空")
    else if |content| > maxLength then Fail("文件内容过长，最大支持" + NatToDecimal(maxLength) + "字符")
    else Pass
  }

  /** The first line of the stripped text, itself stripped and upper-cased. */
  function RequestLine(httpData: string): string
  {
    Upper(Strip(SplitOn(Strip(httpData), '\n')[0]))
  }

  predicate NamesHttpMethod(line: string)
  {
    exists m :: m in HttpMethods && Contains(line, m)
  }

  /** `Validator.validate_http_data`: accepts iff the request line mentions an HTTP method anywhere. */
  function ValidateHttpData(httpData: string): (r: Outcome<string>)
    ensures r.Pass? <==> !IsBlank(httpData) && NamesHttpMethod(RequestLine(httpData))
  {
    if IsBlank(httpData) then Fail("HTTP数据不能为空")
    else if !NamesHttpMethod(RequestLine(httpData)) then Fail("HTTP数据应包含有效的HTTP方法")
    else Pass
  }

  /** `Validator.validate_js_code`: non-blank and at least 10 characters once stripped. */
  function ValidateJsCode(jsCode: string): (r: Outcome<string>)
    ensures r.Pass? <==> |Strip(jsCode)| >= 10
  {
    if IsBlank(jsCode) then Fail("JavaScript代码不能为空")
    else if |Strip(jsCode)| < 10 then Fail("JavaScript代码内容过短")
    else Pass
  }

  /** `Validator.validate_process_data`: non-blank and at least two lines once stripped. */
  function ValidateProcessData(processData: string): (r: Outcome<string>)
    ensures r.Pass? <==> !IsBlank(processData) && |SplitOn(Strip(processData), '\n')| >= 2
  {
    if IsBlank(processData) then Fail("进程数据不能为空")
    else if |SplitOn(Strip(processData), '\n')| < 2 then Fail("进程数据格式不正确，应包含多行进程信息")
    else Pass
  }

  /** `Validator.validate_text_input`: accepts iff the stripped length lies in [2, maxLength]. */
  function ValidateTextInput(text: string, fieldName: string, maxLength: nat): (r: Outcome<string>)
    ensures r.Pass? <==> 2 <= |Strip(text)| <= maxLength
    ensures IsBlank(text) ==> r == Fail(fieldName + "不能为空")
  {
    if IsBlank(text) then Fail(fieldName + "不能为空")
    else if |Strip(text)| > maxLength then Fail(fieldName + "长度不能超过" + NatToDecimal(maxLength) + "字符")
    else if |Strip(text)| < 2 then Fail(fieldName + "内容过短")
    else Pass
  }

  /** The message of a failed check as a one-element list, or nothing. */
  function Errors(o: Outcome<string>): (r: seq<string>)
    ensures |r| <= 1 && (r == [] <==> o.Pass?)
  {
    if o.Fail? then [o.error] else []
  }

  /**
   * `ConfigValidator.validate_api_config`: the messages of every failing check,
   * in the order type, URL, key (only for key-bearing types), model.
   */
  function ValidateApiConfig(apiType: string, apiUrl: string, apiKey: string, model: string): seq<string>
  {
    var errors := [];
    var errors := errors + Errors(ValidateApiType(apiType));
    var errors := errors + Errors(ValidateUrl(apiUrl, apiType + " API地址"));
    var errors := if apiType in KeyedApiTypes then errors + Errors(ValidateApiKey(apiKey, apiType)) else errors;
    errors + Errors(ValidateModelName(model, apiType + " 模型名称"))
  }

  /** The checks `validate_api_config` runs, in order; the key is checked only for key-bearing types. */
  function ApiConfigChecks(apiType: string, apiUrl: string, apiKey: string, model: string): seq<Outcome<string>>
  {
    var a := ValidateApiType(apiType);
    var u := ValidateUrl(apiUrl, apiType + " API地址");
    var m := ValidateModelName(model, apiType + " 模型名称");
    if apiType in KeyedApiTypes then [a, u, ValidateApiKey(apiKey, apiType), m] else [a, u, m]
  }

  /** The messages of the failing checks, in order. */
  function Failures(checks: seq<Outcome<string>>): (r: seq<string>)
    ensures |r| <= |checks|
    ensures r == [] <==> forall i :: 0 <= i < |checks| ==> checks[i].Pass?
  {
    if checks == [] then [] else Errors(checks[0]) + Failures(checks[1..])
  }

  lemma FailuresOfThree(a: Outcome<string>, b: Outcome<string>, c: Outcome<string>)
    ensures Failures([a, b, c]) == Errors(a) + Errors(b) + Errors(c)
  {
    var cs := [a, b, c];
    assert cs[1..] == [b, c] && cs[1..][1..] == [c] && cs[1..][1..][1..] == [];
    assert Failures([c]) == Errors(c);
    assert Failures([b, c]) == Errors(b) + Errors(c);
  }

  lemma FailuresOfFour(a: Outcome<string>, b: Outcome<string>, c: Outcome<string>, d: Outcome<string>)
    ensures Failures([a, b, c, d]) == Errors(a) + Errors(b) + Errors(c) + Errors(d)
  {
    var cs := [a, b, c, d];
    assert cs[1..] == [b, c, d];
    FailuresOfThree(b, c, d);
  }

  /**
   * All failures are reported, not only the first: the result is exactly the
   * messages of the failing checks among type, URL, key and model, in that order.
   */
  lemma ApiConfigReportsEveryFailure(apiType: string, apiUrl: string, apiKey: string, model: string)
    ensures ValidateApiConfig(apiType, apiUrl, apiKey, model) == Failures(ApiConfigChecks(apiType, apiUrl, apiKey, model))
  {
    var a := ValidateApiType(apiType);
    var u := ValidateUrl(apiUrl, apiType + " API地址");
    var k := ValidateApiKey(apiKey, apiType);
    var m := ValidateModelName(model, apiType + " 模型名称");
    ApiConfigErrors(apiType, apiUrl, apiKey, model);
    if apiType in KeyedApiTypes {
      assert ApiConfigChecks(apiType, apiUrl, apiKey, model) == [a, u, k, m];
      FailuresOfFour(a, u, k, m);
    } else {
      assert ApiConfigChecks(apiType, apiUrl, apiKey, model) == [a, u, m];
      FailuresOfThree(a, u, m);
      assert Errors(a) + Errors(u) + [] + Errors(m) == Errors(a) + Errors(u) + Errors(m);
    }
  }

  /** The messages of `validate_api_config`, check by check. */
  lemma ApiConfigErrors(apiType: string, apiUrl: string, apiKey: string, model: string)
    ensures ValidateApiConfig(apiType, apiUrl, apiKey, model) ==
      Errors(ValidateApiType(apiType)) + Errors(ValidateUrl(apiUrl, apiType + " API地址"))
      + (if apiType in KeyedApiTypes then Errors(ValidateApiKey(apiKey, apiType)) else [])
      + Errors(ValidateModelName(model, apiType + " 模型名称"))
  {
    var e: seq<string> := [];
    assert e + Errors(ValidateApiType(apiType)) == Errors(ValidateApiType(apiType));
    if apiType !in KeyedApiTypes {
      var x := Errors(ValidateApiType(apiType)) + Errors(ValidateUrl(apiUrl, apiType + " API地址"));
      assert x + [] == x;
    }
  }

  /** A configuration is accepted iff its type is known, its URL has an http(s) scheme, its key passes (when needed) and its model name has 3 or more characters. */
  lemma ApiConfigAcceptsIff(apiType: string, apiUrl: string, apiKey: string, model: string)
    ensures ValidateApiConfig(apiType, apiUrl, apiKey, model) == [] <==>
      && apiType in ApiTypes && HasHttpScheme(apiUrl)
      && (apiType in KeyedApiTypes ==> ValidateApiKey(apiKey, apiType).Pass?)
      && |Strip(model)| >= 3
  {
    ApiConfigErrors(apiType, apiUrl, apiKey, model);
    var a := Errors(ValidateApiType(apiType));
    var u := Errors(ValidateUrl(apiUrl, apiType + " API地址"));
    var k := if apiType in KeyedApiTypes then Errors(ValidateApiKey(apiKey, apiType)) else [];
    var m := Errors(ValidateModelName(model, apiType + " 模型名称"));
    assert |a + u + k + m| == |a| + |u| + |k| + |m|;
  }

  /** `ConfigValidator.validate_theme` */
  function ValidateTheme(theme: string): (r: seq<string>)
    ensures r == [] <==> theme in Themes
    ensures |r| <= 1
  {
    if theme in Themes then [] else ["主题必须是以下之一: " + JoinWith(Themes, ", ")]
  }
}
