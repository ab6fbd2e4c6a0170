/**
 * One completion request: `AIService.chat_completion` and what it does with
 * the backend's reply (`_call_deepseek`, `_call_openrouter`, `_call_ollama`,
 * `_handle_response`).
 *
 * The HTTP exchange is an oracle: the request that would be posted is a
 * `Request` value, and the backend's answer is a `Reply`, either a received
 * response (status, raw text and the decoded JSON body, if any) or one of the
 * transport failures `requests` raises.
 */
module Backend {
  import opened Wrappers
  import opened Text
  import opened Exceptions
  import opened ErrorHandler
  import opened Config
  import opened Validators

  /** The `content` entry of a `message` object: absent, JSON null, or a string. */
  datatype Content = Absent | Null | Str(text: string)

  /** One element of `choices`; `message` is `None` when the key is absent. */
  datatype Choice = Choice(message: Option<Content>)

  /** The `error` entry of an error body: absent, an object (with its `message`, if any), or another value. */
  datatype ErrorField = NoError | ErrorObject(message: Option<string>) | ErrorOther

  /** A decoded JSON object: the entries the client reads, `None` where the key is absent. */
  datatype Json = Json(choices: Option<seq<Choice>>, message: Option<Content>, error: ErrorField)

  /** The body of a response: not JSON at all, or a JSON object. */
  datatype Body = NotJson | Object(json: Json)

  datatype Reply =
    | Received(status: nat, text: string, body: Body)
    | TimedOut
    | ConnectionFailed
    | RequestFailed(reason: string)

  /** What is posted: the configured endpoint, key and model, and the prompt as the only user message. */
  datatype Request = Request(apiType: string, url: string, key: string, model: string, prompt: string)

  function RequestFor(config: APIConfig, prompt: string): (q: Request)
    ensures q.url == config.apiUrl && q.model == config.model && q.prompt == prompt
  {
    Request(config.apiType, config.apiUrl, config.apiKey, config.model, prompt)
  }

  /** The name a backend is called by in messages. */
  function DisplayName(apiType: string): string
  {
    if apiType == "deepseek" then "DeepSeek" else if apiType == "openrouter" then "OpenRouter" else "Ollama"
  }

  function AiError(message: string): (e: Exc)
    ensures e.IsA(AIService) && e.Text() == message
  {
    Raise(AIService, message)
  }

  /** The message of a non-200 error body: `error.message`, else "未知错误"; the raw text when the body is not an object with an object `error`. */
  function ErrorMessage(text: string, body: Body): string
  {
    match body
    case NotJson => text
    case Object(json) =>
      match json.error
      case NoError => "未知错误"
      case ErrorObject(m) => if m.Some? then m.value else "未知错误"
      case ErrorOther => text
  }

  /** The first choice's content, if `choices` is a non-empty list whose first element has `message.content`. */
  function FirstContent(json: Json): Option<Content>
  {
    if json.choices.None? || json.choices.value == [] then None
    else
      var first := json.choices.value[0];
      if first.message.None? || first.message.value.Absent? then None else Some(first.message.value)
  }

  /** `AIService._handle_response` for a received response. */
  function HandleResponse(status: nat, text: string, body: Body, name: string): (r: Result<string, Exc>)
    ensures status == 401 ==> r == Err(Raise(Authentication, name + " API认证失败，请检查API密钥"))
    ensures status == 429 ==> r == Err(Raise(RateLimit, name + " API请求频率超限，请稍后重试"))
    ensures status !in {200, 401, 429} ==>
      r == Err(AiError(name + " API返回错误状态码 " + NatToDecimal(status) + ": " + ErrorMessage(text, body)))
    ensures r.Err? ==> r.error.IsApi()
    ensures r.Ok? <==>
      && status == 200 && body.Object?
      && FirstContent(body.json).Some? && FirstContent(body.json).value.Str?
      && FirstContent(body.json).value.text != []
    ensures r.Ok? ==> r.value == FirstContent(body.json).value.text
  {
    if status == 401 then Err(Raise(Authentication, name + " API认证失败，请检查API密钥"))
    else if status == 429 then Err(Raise(RateLimit, name + " API请求频率超限，请稍后重试"))
    else if status != 200 then Err(AiError(name + " API返回错误状态码 " + NatToDecimal(status) + ": " + ErrorMessage(text, body)))
    else if body.NotJson? then Err(AiError(name + " API响应不是有效的JSON格式"))
    else
      var json := body.json;
      if json.choices.None? || json.choices.value == [] then Err(AiError(name + " API响应格式错误：缺少choices字段"))
      else if FirstContent(json).None? then Err(AiError(name + " API响应格式错误：缺少message.content字段"))
      else if !FirstContent(json).value.Str? || FirstContent(json).value.text == [] then Err(AiError(name + " API返回空内容"))
      else Ok(FirstContent(json).value.text)
  }

  /** A 200 response is classified by the first failing check, in order: JSON, choices, message.content, non-empty. */
  lemma OkResponseChecks(text: string, body: Body, name: string)
    ensures body.NotJson? ==> HandleResponse(200, text, body, name) == Err(AiError(name + " API响应不是有效的JSON格式"))
    ensures body.Object? && (body.json.choices.None? || body.json.choices.value == []) ==>
      HandleResponse(200, text, body, name) == Err(AiError(name + " API响应格式错误：缺少choices字段"))
    ensures body.Object? && FirstContent(body.json).Some? && FirstContent(body.json).value != Str([]) && !FirstContent(body.json).value.Str? ==>
      HandleResponse(200, text, body, name) == Err(AiError(name + " API返回空内容"))
  {
  }

  const ThinkOpen := "<think>"
  const ThinkClose := "</think>"

  /** `re.sub(r'<think>.*?</think>', '', s, flags=re.DOTALL)`: one left-to-right pass removing each opening tag through the nearest closing tag after it. */
  function StripThink(s: string): (r: string)
    ensures |r| <= |s|
    decreases |s|
  {
    match FindFrom(s, ThinkOpen, 0)
    case None => s
    case Some(i) =>
      match FindFrom(s, ThinkClose, i + |ThinkOpen|)
      case None => s
      case Some(j) => s[..i] + StripThink(s[j + |ThinkClose|..])
  }

  /**
   * When `p` cannot overlap a copy of itself shifted by less than its length
   * (its first character does not recur in it), and `mid` does not contain
   * `p`, the first occurrence of `p` at or after `|pre|` in
   * `pre + mid + p + post` is the one right after `mid`.
   */
  lemma FindAfter(pre: string, mid: string, p: string, post: string)
    requires p != [] && forall k :: 1 <= k < |p| ==> p[k] != p[0]
    requires !Contains(mid, p)
    ensures FindFrom(pre + mid + p + post, p, |pre|) == Some(|pre| + |mid|)
  {
    var s := pre + mid + p + post;
    var at := |pre| + |mid|;
    assert s[at..at + |p|] == p;
    assert OccursAt(s, p, at);
    forall k: nat | |pre| <= k < at
      ensures !OccursAt(s, p, k)
    {
      if k + |p| <= at {
        assert s[k..k + |p|] == mid[k - |pre|..k - |pre| + |p|];
        assert !OccursAt(mid, p, k - |pre|);
      } else {
        var d := at - k;
        assert s[k + d] == p[0] && p[d] != p[0];
        assert k + |p| > |s| || s[k..k + |p|][d] != p[d];
      }
    }
  }

  lemma NoOccurrenceAfter(pre: string, rest: string, p: string)
    requires !Contains(rest, p)
    ensures forall k: nat :: |pre| <= k ==> !OccursAt(pre + rest, p, k)
  {
    var s := pre + rest;
    forall k: nat | |pre| <= k && k + |p| <= |s|
      ensures !OccursAt(s, p, k)
    {
      assert s[k..k + |p|] == rest[k - |pre|..k - |pre| + |p|];
      assert !OccursAt(rest, p, k - |pre|);
    }
  }

  /** A string that does not contain `p` after `|pre|` gives no match there. */
  lemma FindNone(pre: string, rest: string, p: string)
    requires !Contains(rest, p)
    ensures FindFrom(pre + rest, p, |pre|) == None
  {
    NoOccurrenceAfter(pre, rest, p);
  }

  lemma OpenTagAt(a: string, b: string, c: string)
    requires !Contains(a, ThinkOpen)
    ensures FindFrom(a + ThinkOpen + b + ThinkClose + c, ThinkOpen, 0) == Some(|a|)
  {
    assert a + ThinkOpen + b + ThinkClose + c == [] + a + ThinkOpen + (b + ThinkClose + c);
    FindAfter([], a, ThinkOpen, b + ThinkClose + c);
  }

  /** Removing one complete block: text before the first opening tag is kept, the block up to the nearest closing tag goes, and the rest is stripped. */
  lemma StripThinkBlock(a: string, b: string, c: string)
    requires !Contains(a, ThinkOpen) && !Contains(b, ThinkClose)
    ensures StripThink(a + ThinkOpen + b + ThinkClose + c) == a + StripThink(c)
  {
    var s := a + ThinkOpen + b + ThinkClose + c;
    var j := |a| + |ThinkOpen| + |b|;
    OpenTagAt(a, b, c);
    FindAfter(a + ThinkOpen, b, ThinkClose, c);
    assert s[..|a|] == a;
    assert s[j + |ThinkClose|..] == c;
  }

  /** A text without an opening tag is left alone. */
  lemma StripThinkNoTag(s: string)
    requires !Contains(s, ThinkOpen)
    ensures StripThink(s) == s
  {
    match FindFrom(s, ThinkOpen, 0)
    case None =>
    case Some(i) =>
      assert false;
  }

  /** An opening tag with no closing tag after it stays. */
  lemma StripThinkUnclosed(a: string, b: string)
    requires !Contains(a, ThinkOpen) && !Contains(b, ThinkClose)
    ensures StripThink(a + ThinkOpen + b) == a + ThinkOpen + b
  {
    var s := a + ThinkOpen + b;
    assert s == [] + a + ThinkOpen + b;
    FindAfter([], a, ThinkOpen, b);
    FindNone(a + ThinkOpen, b, ThinkClose);
  }

  /** An empty block is removed entirely. */
  lemma StripThinkEmptyBlock()
    ensures StripThink(ThinkOpen + ThinkClose) == []
  {
    assert [] + ThinkOpen + [] + ThinkClose + [] == ThinkOpen + ThinkClose;
    StripThinkBlock([], [], []);
  }

  /** The text of the single-pass example: "<thi", an empty block, then "nk>" and a closing tag. */
  const SplitTagText := "<thi" + ThinkOpen + ThinkClose + ("nk>" + ThinkClose)

  lemma SplitTagPieces()
    ensures SplitTagText == "<thi" + ThinkOpen + [] + ThinkClose + ("nk>" + ThinkClose)
    ensures "<thi" + ("nk>" + ThinkClose) == ThinkOpen + ThinkClose
  {
  }

  /**
   * The pass is not repeated, so it is not idempotent: removing a block can
   * join the text around it into a new complete block.
   */
  lemma StripThinkSinglePass()
    ensures StripThink(SplitTagText) == ThinkOpen + ThinkClose
    ensures StripThink(StripThink(SplitTagText)) == []
  {
    assert !Contains("<thi", ThinkOpen);
    assert !Contains([], ThinkClose);
    SplitTagPieces();
    StripThinkBlock("<thi", [], "nk>" + ThinkClose);
    StripThinkEmptyBlock();
  }

  /** `str(e)` of the `TypeError` `re.sub` raises when `content` is JSON null, as CPython before 3.12 words it. */
  const NullContentError := "expected string or bytes-like object"

  /** `_call_ollama` for a received response. */
  function OllamaResponse(status: nat, body: Body): (r: Result<string, Exc>)
    ensures status != 200 ==> r == Err(AiError("Ollama API返回错误状态码: " + NatToDecimal(status)))
    ensures r.Ok? <==> status == 200 && body.Object? && body.json.message.Some? && body.json.message.value.Str?
    ensures r.Ok? ==> r.value == Strip(StripThink(body.json.message.value.text))
    ensures status == 200 && body.Object? && (body.json.message.None? || body.json.message.value.Absent?) ==>
      r == Err(AiError("Ollama API响应格式错误"))
  {
    if status != 200 then Err(AiError("Ollama API返回错误状态码: " + NatToDecimal(status)))
    else if body.NotJson? then Err(AiError("Ollama API响应不是有效的JSON格式"))
    else if body.json.message.None? || body.json.message.value.Absent? then Err(AiError("Ollama API响应格式错误"))
    else if body.json.message.value.Null? then Err(PlainExc(NullContentError))
    else Ok(Strip(StripThink(body.json.message.value.text)))
  }

  /** The three `_call_*` methods: a received response is classified, a transport failure becomes an `AIServiceError`. */
  function CallBackend(apiType: string, reply: Reply): (r: Result<string, Exc>)
    requires apiType in ApiTypes
    ensures reply.TimedOut? ==> r == Err(AiError(DisplayName(apiType) + " API请求超时"))
    ensures reply.ConnectionFailed? && apiType != "ollama" ==> r == Err(AiError("无法连接到" + DisplayName(apiType) + " API"))
    ensures reply.ConnectionFailed? && apiType == "ollama" ==> r == Err(AiError("无法连接到Ollama服务"))
    ensures reply.RequestFailed? ==> r == Err(AiError(DisplayName(apiType) + " API请求失败: " + reply.reason))
    ensures reply.Received? && apiType != "ollama" ==> r == HandleResponse(reply.status, reply.text, reply.body, DisplayName(apiType))
    ensures reply.Received? && apiType == "ollama" ==> r == OllamaResponse(reply.status, reply.body)
  {
    var name := DisplayName(apiType);
    match reply
    case Received(status, text, body) =>
      if apiType == "ollama" then OllamaResponse(status, body) else HandleResponse(status, text, body, name)
    case TimedOut => Err(AiError(name + " API请求超时"))
    case ConnectionFailed => Err(AiError(if apiType == "ollama" then "无法连接到Ollama服务" else "无法连接到" + name + " API"))
    case RequestFailed(reason) => Err(AiError(name + " API请求失败: " + reason))
  }

  /** The error `chat_completion` raises before any request, if any: a configuration that fails validation, then an unknown type. */
  function Precheck(config: APIConfig): (r: Option<Exc>)
    ensures r.None? <==> config.Validate() == [] && config.apiType in ApiTypes
    ensures config.Validate() != [] ==> r == Some(AiError("配置验证失败: " + JoinWith(config.Validate(), "; ")))
    ensures config.Validate() == [] && config.apiType !in ApiTypes ==> r == Some(AiError("不支持的API类型: " + config.apiType))
  {
    var errors := config.Validate();
    if errors != [] then Some(AiError("配置验证失败: " + JoinWith(errors, "; ")))
    else if config.apiType !in ApiTypes then Some(AiError("不支持的API类型: " + config.apiType))
    else None
  }

  /**
   * `AIService.chat_completion` under its `handle_service_error` decorator,
   * when the request, if one is sent, is answered with `reply`. Only API
   * exceptions come out.
   */
  function ChatCompletion(config: APIConfig, reply: Reply): (r: Result<string, Exc>)
    ensures Precheck(config).Some? ==> r == Err(Precheck(config).value)
    ensures Precheck(config).None? ==> r == Decorated(CallBackend(config.apiType, reply))
    ensures r.Err? ==> r.error.IsApi()
  {
    var pre := Precheck(config);
    Decorated(if pre.Some? then Err(pre.value) else CallBackend(config.apiType, reply))
  }

  /** A configuration that fails validation never reaches the backend: the outcome is the same whatever the reply. */
  lemma InvalidConfigSendsNothing(config: APIConfig, reply1: Reply, reply2: Reply)
    requires config.Validate() != [] || config.apiType !in ApiTypes
    ensures ChatCompletion(config, reply1) == ChatCompletion(config, reply2)
    ensures ChatCompletion(config, reply1).Err? && ChatCompletion(config, reply1).error.IsA(AIService)
  {
  }

  /** A rejected key surfaces from `chat_completion` as the `AuthenticationError` itself. */
  lemma UnauthorizedRaised(config: APIConfig, text: string, body: Body)
    requires Precheck(config).None? && config.apiType != "ollama"
    ensures ChatCompletion(config, Received(401, text, body)) == Err(Raise(Authentication, DisplayName(config.apiType) + " API认证失败，请检查API密钥"))
  {
    var e := Raise(Authentication, DisplayName(config.apiType) + " API认证失败，请检查API密钥");
    assert CallBackend(config.apiType, Received(401, text, body)) == Err(e);
    assert Decorated<string>(Err(e)) == Err(e);
  }

  /** A rejected key reaches the route as a generic 500 API error, not as an AI-service error. */
  lemma UnauthorizedIsApiError(config: APIConfig, text: string, body: Body)
    requires Precheck(config).None? && config.apiType != "ollama"
    ensures HandleApiError(ChatCompletion(config, Received(401, text, body)).error) ==
      Response(ErrorBody(DisplayName(config.apiType) + " API认证失败，请检查API密钥", "API_ERROR", Some(map[])), 500)
  {
    UnauthorizedRaised(config, text, body);
    DefaultCodes(Raise(Authentication, DisplayName(config.apiType) + " API认证失败，请检查API密钥"));
  }

  /** Null Ollama content is not an API exception; the service decorator wraps it. */
  lemma OllamaNullContentWrapped(config: APIConfig)
    requires Precheck(config).None? && config.apiType == "ollama"
    ensures ChatCompletion(config, Received(200, "", Object(Json(None, Some(Null), NoError))))
      == Err(Raise(ApiBase, ServiceFailurePrefix + NullContentError))
  {
  }
}
