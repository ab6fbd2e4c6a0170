/**
 * `AnalysisService`: every analysis validates its input, asks the AI service
 * (whole or in chunks), and post-processes the answer: the attack and
 * WebShell verdicts, the threat level, the web-log task list and the
 * fallbacks of the web-log chat.
 *
 * The AI service is a parameter: `chunked(task, content)` is the outcome of
 * `chat_completion_with_chunking` on the task's prompt template and the
 * content, `direct(task)` that of `chat_completion` on the task's prompt.
 * The prompt texts themselves are not modelled; a task names the prompt and
 * the values interpolated into it.
 */
module Analysis {
  import opened Wrappers
  import opened Text
  import opened Exceptions
  import opened ErrorHandler
  import opened Validators
  import Orchestrator

  /** The prompt a request is built from, with the values interpolated into it. */
  datatype Task =
    | TrafficTask
    | DecodeTask
    | JavaScriptTask
    | ProcessTask(processData: string)
    | RegexTask(sourceText: string, targetText: string)
    | WebshellTask(fileName: string)
    | WebLogTask(tasks: seq<string>)
    | ChatTask(analysisText: string, question: string)
    | TranslateTask(sourceLang: string, targetLang: string)

  datatype Ai = Ai(chunked: (Task, string) -> Result<string, Exc>, direct: Task -> Result<string, Exc>)

  /** The dictionaries the analyses return, one constructor per `analysis_type`. */
  datatype Report =
    | Traffic(result: string, isAttack: bool)
    | Decoded(result: string)
    | JavaScriptAudit(result: string)
    | ProcessAnalysis(result: string)
    | RegexGeneration(result: string)
    | WebshellDetection(result: string, isWebshell: bool, threatLevel: string, fileName: string)
    | WebLogAnalysis(result: string, options: seq<string>)
    | WebLogChat(result: string, question: string)
    | Translation(result: string, sourceLang: string, targetLang: string)

  const AttackMarker := "【分析结果】是"
  const WebshellMarker := "【检测结果】是"
  const LevelMarker := "【威胁等级】"
  /** The threat levels, in the order they are looked for. */
  const Levels: seq<string> := ["高危", "中危", "低危", "无威胁"]
  const UnknownLevel := "未知"

  /** The web-log options with a task, in the order the tasks are listed, and their tasks. */
  const OptionNames: seq<string> := ["攻击检测", "异常分析", "统计分析", "性能分析"]
  const OptionTasks: seq<string> := [
    "识别SQL注入、XSS、文件包含、命令执行等攻击行为",
    "检测异常访问模式、可疑IP、异常User-Agent",
    "统计访问频率、热门页面、错误代码分布",
    "分析响应时间、资源消耗、性能瓶颈"
  ]
  const DefaultOptions: seq<string> := ["攻击检测", "异常分析", "统计分析"]

  const QuestionLimit: nat := 1000
  const NoAnswer := "抱歉，无法分析您的问题。请检查日志格式是否正确，或尝试重新表述您的问题。"
  const ChatFailureHead := "抱歉，处理您的问题时遇到技术问题："
  const ChatFailureTail := "。请稍后重试或联系管理员。"

  /** The first validation that fails, in order, or `Pass`. */
  function FirstFailure(checks: seq<Outcome<string>>): (r: Outcome<string>)
    ensures r.Pass? <==> forall i :: 0 <= i < |checks| ==> checks[i].Pass?
    ensures r.Fail? ==> exists i :: 0 <= i < |checks| && checks[i] == r && forall j :: 0 <= j < i ==> checks[j].Pass?
  {
    if checks == [] then Pass
    else if checks[0].Fail? then checks[0]
    else
      var r := FirstFailure(checks[1..]);
      assert forall i :: 1 <= i < |checks| ==> checks[i] == checks[1..][i - 1];
      r
  }

  /**
   * An analysis under `@handle_service_error`: a failed validation raises
   * `ValidationError` before the AI service is asked; otherwise the answer
   * is post-processed, and an exception that is not an `APIException` is
   * wrapped.
   */
  function Analysis(check: Outcome<string>, answer: Result<string, Exc>, report: string -> Report): (r: Result<Report, Exc>)
    ensures check.Fail? ==> r == Err(Raise(Validation, check.error))
    ensures check.Pass? && answer.Ok? ==> r == Ok(report(answer.value))
    ensures check.Pass? && answer.Err? ==> r.Err? && r.error == WrapServiceError(answer.error)
  {
    if check.Fail? then Err(Raise(Validation, check.error))
    else match answer
      case Ok(text) => Ok(report(text))
      case Err(e) => Err(WrapServiceError(e))
  }

  /** `"【分析结果】是" in result` */
  predicate IsAttack(result: string)
  {
    Contains(result, AttackMarker)
  }

  /** `"【检测结果】是" in result` */
  predicate IsWebshell(result: string)
  {
    Contains(result, WebshellMarker)
  }

  /** `levels[i]` is the first of `levels` the result declares. */
  predicate LevelAt(result: string, levels: seq<string>, i: int)
  {
    && 0 <= i < |levels| && Contains(result, LevelMarker + levels[i])
    && forall j :: 0 <= j < i ==> !Contains(result, LevelMarker + levels[j])
  }

  /** The first of `levels` the result declares, or `UnknownLevel`. */
  function FirstLevel(result: string, levels: seq<string>): (r: string)
    requires UnknownLevel !in levels
    ensures r == UnknownLevel <==> forall i :: 0 <= i < |levels| ==> !Contains(result, LevelMarker + levels[i])
    ensures r != UnknownLevel ==> exists i :: LevelAt(result, levels, i) && r == levels[i]
  {
    if levels == [] then UnknownLevel
    else if Contains(result, LevelMarker + levels[0]) then levels[0]
    else
      var r := FirstLevel(result, levels[1..]);
      assert forall i :: 1 <= i < |levels| ==> levels[i] == levels[1..][i - 1];
      r
  }

  /** The threat level of `detect_webshell`: the first declared of 高危, 中危, 低危, 无威胁, else 未知. */
  function ThreatLevel(result: string): (r: string)
    ensures r == UnknownLevel || r in Levels
  {
    FirstLevel(result, Levels)
  }

  /** A higher level wins over any lower one the answer also declares. */
  lemma ThreatLevelPriority(result: string, i: nat)
    requires i < |Levels| && Contains(result, LevelMarker + Levels[i])
    ensures ThreatLevel(result) != UnknownLevel
    ensures exists j :: 0 <= j <= i && ThreatLevel(result) == Levels[j] && Contains(result, LevelMarker + Levels[j])
  {
    var r := ThreatLevel(result);
    assert UnknownLevel !in Levels;
    var j :| LevelAt(result, Levels, j) && r == Levels[j];
    assert j <= i;
  }

  /** `analyze_traffic` */
  function AnalyzeTraffic(httpData: string, ai: Ai): Result<Report, Exc>
  {
    Analysis(ValidateHttpData(httpData), ai.chunked(TrafficTask, httpData), t => Traffic(t, IsAttack(t)))
  }

  /** `decode_string` */
  function DecodeString(encoded: string, ai: Ai): Result<Report, Exc>
  {
    Analysis(ValidateRequired(encoded, "编码字符串"), ai.chunked(DecodeTask, encoded), t => Decoded(t))
  }

  /** `analyze_javascript` */
  function AnalyzeJavaScript(jsCode: string, ai: Ai): Result<Report, Exc>
  {
    Analysis(ValidateJsCode(jsCode), ai.chunked(JavaScriptTask, jsCode), t => JavaScriptAudit(t))
  }

  /** `analyze_process`: the only analysis besides regex generation that is never chunked. */
  function AnalyzeProcess(processData: string, ai: Ai): Result<Report, Exc>
  {
    Analysis(ValidateProcessData(processData), ai.direct(ProcessTask(processData)), t => ProcessAnalysis(t))
  }

  /** `generate_regex` */
  function GenerateRegex(source: string, target: string, ai: Ai): Result<Report, Exc>
  {
    Analysis(FirstFailure([ValidateRequired(source, "源文本"), ValidateRequired(target, "目标文本")]),
             ai.direct(RegexTask(source, target)), t => RegexGeneration(t))
  }

  /** `detect_webshell` */
  function DetectWebshell(content: string, fileName: string, ai: Ai): Result<Report, Exc>
  {
    Analysis(ValidateFileContent(content, DefaultFileLimit), ai.chunked(WebshellTask(fileName), content),
             t => WebshellDetection(t, IsWebshell(t), ThreatLevel(t), fileName))
  }

  /** `translate_text` */
  function TranslateText(text: string, sourceLang: string, targetLang: string, ai: Ai): Result<Report, Exc>
  {
    Analysis(FirstFailure([ValidateRequired(text, "翻译文本"), ValidateRequired(sourceLang, "源语言"), ValidateRequired(targetLang, "目标语言")]),
             ai.chunked(TranslateTask(sourceLang, targetLang), text), t => Translation(t, sourceLang, targetLang))
  }

  /** The options `analyze_web_logs` works with: the defaults when none are given. */
  function EffectiveOptions(options: seq<string>): seq<string>
  {
    if options == [] then DefaultOptions else options
  }

  /** The tasks of the first `k` known options that are selected, in the known order. */
  function SelectedTasks(options: seq<string>, k: nat): (r: seq<string>)
    requires k <= |OptionNames|
    ensures |r| <= k
  {
    if k == 0 then []
    else SelectedTasks(options, k - 1) + (if OptionNames[k - 1] in options then [OptionTasks[k - 1]] else [])
  }

  /** `analyze_web_logs`'s task list: one append per known option that is selected, in the fixed order. */
  method AnalysisTasks(options: seq<string>) returns (tasks: seq<string>)
    ensures tasks == SelectedTasks(options, |OptionNames|)
  {
    tasks := [];
    if OptionNames[0] in options {
      tasks := tasks + [OptionTasks[0]];
    }
    assert tasks == SelectedTasks(options, 1);
    if OptionNames[1] in options {
      tasks := tasks + [OptionTasks[1]];
    }
    assert tasks == SelectedTasks(options, 2);
    if OptionNames[2] in options {
      tasks := tasks + [OptionTasks[2]];
    }
    assert tasks == SelectedTasks(options, 3);
    if OptionNames[3] in options {
      tasks := tasks + [OptionTasks[3]];
    }
  }

  /** Which tasks are listed depends only on which known options are selected. */
  lemma {:induction false} SelectedTasksKnownOnly(options: seq<string>, other: seq<string>, k: nat)
    requires k <= |OptionNames|
    requires forall i :: 0 <= i < k ==> (OptionNames[i] in options <==> OptionNames[i] in other)
    ensures SelectedTasks(options, k) == SelectedTasks(other, k)
  {
    if k > 0 {
      SelectedTasksKnownOnly(options, other, k - 1);
    }
  }

  /**
   * Option names without a task (such as 异常行为 or 访问统计) add nothing,
   * and the same option given twice adds its task once.
   */
  lemma UnknownOptionsIgnored(options: seq<string>, extra: seq<string>)
    requires forall n :: n in extra ==> n !in OptionNames || n in options
    ensures SelectedTasks(options + extra, |OptionNames|) == SelectedTasks(options, |OptionNames|)
  {
    SelectedTasksKnownOnly(options + extra, options, |OptionNames|);
  }

  /** A task is listed exactly when its option is selected. */
  lemma {:induction false} SelectedTasksExact(options: seq<string>, k: nat)
    requires k <= |OptionNames|
    ensures forall i :: 0 <= i < k ==> (OptionTasks[i] in SelectedTasks(options, k) <==> OptionNames[i] in options)
  {
    if k > 0 {
      SelectedTasksExact(options, k - 1);
      var prev := SelectedTasks(options, k - 1);
      assert forall i :: 0 <= i < k - 1 ==> OptionTasks[i] != OptionTasks[k - 1];
      SelectedFrom(options, k - 1);
      assert OptionTasks[k - 1] !in prev;
    }
  }

  /** Every listed task is the task of one of the first `k` options. */
  lemma {:induction false} SelectedFrom(options: seq<string>, k: nat)
    requires k <= |OptionNames|
    ensures forall a :: 0 <= a < |SelectedTasks(options, k)| ==> exists i :: 0 <= i < k && SelectedTasks(options, k)[a] == OptionTasks[i]
  {
    if k > 0 {
      SelectedFrom(options, k - 1);
      var prev := SelectedTasks(options, k - 1);
      var r := SelectedTasks(options, k);
      forall a | 0 <= a < |r|
        ensures exists i :: 0 <= i < k && r[a] == OptionTasks[i]
      {
        if a < |prev| {
          assert r[a] == prev[a];
          var i :| 0 <= i < k - 1 && prev[a] == OptionTasks[i];
        } else {
          assert r[a] == OptionTasks[k - 1];
        }
      }
    } else {
      assert SelectedTasks(options, k) == [];
    }
  }

  /** Of any two tasks in `r`, the earlier is the task of an earlier one of the first `k` options. */
  predicate InOptionOrder(r: seq<string>, k: nat)
    requires k <= |OptionTasks|
  {
    forall i, j :: 0 <= i < j < |r| ==> exists a, b :: 0 <= a < b < k && r[i] == OptionTasks[a] && r[j] == OptionTasks[b]
  }

  /**
   * Listed tasks follow the fixed order of the known options, each at most
   * once: of any two, the earlier belongs to an earlier option.
   */
  lemma {:induction false} SelectedInOrder(options: seq<string>, k: nat)
    requires k <= |OptionNames|
    ensures InOptionOrder(SelectedTasks(options, k), k)
  {
    if k > 0 {
      var prev := SelectedTasks(options, k - 1);
      var r := SelectedTasks(options, k);
      SelectedInOrder(options, k - 1);
      SelectedFrom(options, k - 1);
      forall i, j | 0 <= i < j < |r|
        ensures exists a, b :: 0 <= a < b < k && r[i] == OptionTasks[a] && r[j] == OptionTasks[b]
      {
        assert r[i] == prev[i];
        if j < |prev| {
          assert r[j] == prev[j];
          var a, b :| 0 <= a < b < k - 1 && prev[i] == OptionTasks[a] && prev[j] == OptionTasks[b];
        } else {
          assert r[j] == OptionTasks[k - 1];
          var a :| 0 <= a < k - 1 && prev[i] == OptionTasks[a];
          assert r[i] == OptionTasks[a] && r[j] == OptionTasks[k - 1];
        }
      }
      assert InOptionOrder(r, k);
    } else {
      assert SelectedTasks(options, k) == [];
    }
  }

  /** With no options given, the attack, anomaly and statistics tasks are listed, in that order. */
  lemma DefaultTasks()
    ensures SelectedTasks(EffectiveOptions([]), |OptionNames|) == OptionTasks[..3]
  {
    assert "性能分析" !in DefaultOptions;
  }

  /** `analyze_web_logs` */
  function AnalyzeWebLogs(content: string, options: seq<string>, ai: Ai): Result<Report, Exc>
  {
    var effective := EffectiveOptions(options);
    Analysis(ValidateFileContent(content, DefaultFileLimit),
             ai.chunked(WebLogTask(SelectedTasks(effective, |OptionNames|)), content),
             t => WebLogAnalysis(t, effective))
  }

  /**
   * The `result` entry of a posted dictionary: a string, a list or object
   * (quoted through its `str`), or a null, number or boolean, which has no
   * `len`.
   */
  datatype Entry = Str(text: string) | Container(shown: string) | Scalar

  /** The `analysis_result` posted to the chat: a dictionary (its `result` entry and its `str`) or any other value (its `str`). */
  datatype Prior = Record(result: Option<Entry>, shown: string) | Value(shown: string)

  /** What the prompt quotes when taking the length of the previous analysis raises. */
  const NoPriorResult := "暂无分析结果"

  /** The previous analysis as the chat prompt quotes it. */
  function AnalysisText(prior: Prior): string
  {
    match prior
    case Record(Some(Str(text)), _) => text
    case Record(Some(Container(shown)), _) => shown
    case Record(Some(Scalar), _) => NoPriorResult
    case Record(None, shown) => shown
    case Value(shown) => shown
  }

  /**
   * A `result` without a length (null, a number, a boolean) is answered as if
   * the previous analysis were the text "暂无分析结果", whatever the rest of
   * the dictionary holds.
   */
  lemma ScalarResultFallsBack(question: string, log: string, shown: string, ai: Ai)
    ensures ChatWeblog(question, log, Record(Some(Scalar), shown), ai) == ChatWeblog(question, log, Value(NoPriorResult), ai)
  {
    assert AnalysisText(Record(Some(Scalar), shown)) == NoPriorResult == AnalysisText(Value(NoPriorResult));
  }

  /** The validations of `chat_weblog`, in order. */
  function ChatCheck(question: string, log: string): (r: Outcome<string>)
    ensures r.Pass? <==> 2 <= |Strip(question)| && |question| <= QuestionLimit && !IsBlank(log)
  {
    if IsBlank(question) then Fail("问题不能为空")
    else if |question| > QuestionLimit then Fail("问题长度不能超过1000字符")
    else if IsBlank(log) then Fail("日志内容不能为空")
    else ValidateTextInput(question, "问题", QuestionLimit)
  }

  /** The answer of the chat: the AI's text, the fixed apology for a blank one, or an apology quoting the failure. */
  function ChatAnswer(answer: Result<string, Exc>): (r: string)
    ensures answer.Ok? && !IsBlank(answer.value) ==> r == answer.value
    ensures answer.Ok? && IsBlank(answer.value) ==> r == NoAnswer
    ensures answer.Err? ==> r == ChatFailureHead + answer.error.Text() + ChatFailureTail
  {
    match answer
    case Ok(text) => if IsBlank(text) then NoAnswer else text
    case Err(e) => ChatFailureHead + e.Text() + ChatFailureTail
  }

  /** `chat_weblog` */
  function ChatWeblog(question: string, log: string, prior: Prior, ai: Ai): Result<Report, Exc>
  {
    var check := ChatCheck(question, log);
    if check.Fail? then Err(Raise(Validation, check.error))
    else Ok(WebLogChat(ChatAnswer(ai.chunked(ChatTask(AnalysisText(prior), question), log)), question))
  }

  /**
   * The chat degrades instead of failing: once the inputs are valid it always
   * answers, with a non-blank text, whatever the AI service does.
   */
  lemma ChatNeverFails(question: string, log: string, prior: Prior, ai: Ai)
    requires ChatCheck(question, log).Pass?
    ensures ChatWeblog(question, log, prior, ai).Ok?
    ensures !IsBlank(ChatWeblog(question, log, prior, ai).value.result)
  {
    var answer := ai.chunked(ChatTask(AnalysisText(prior), question), log);
    assert ChatWeblog(question, log, prior, ai) == Ok(WebLogChat(ChatAnswer(answer), question));
    ChatAnswerNonBlank(answer);
  }

  /** Whatever the AI service returns, the chat's answer is not blank. */
  lemma ChatAnswerNonBlank(answer: Result<string, Exc>)
    ensures !IsBlank(ChatAnswer(answer))
  {
    var r := ChatAnswer(answer);
    if answer.Ok? && IsBlank(answer.value) {
      assert r == NoAnswer && NoAnswer[0] == '抱';
      NotBlankByFirst(r);
    } else if answer.Err? {
      assert r[0] == ChatFailureHead[0] == '抱';
      NotBlankByFirst(r);
    }
  }

  /** A blank question, a question over 1000 characters or a blank log is refused with a validation error. */
  lemma ChatRefusals(question: string, log: string, prior: Prior, ai: Ai)
    ensures IsBlank(question) ==> ChatWeblog(question, log, prior, ai) == Err(Raise(Validation, "问题不能为空"))
    ensures !IsBlank(question) && |question| > QuestionLimit ==>
      ChatWeblog(question, log, prior, ai) == Err(Raise(Validation, "问题长度不能超过1000字符"))
    ensures !IsBlank(question) && |question| <= QuestionLimit && IsBlank(log) ==>
      ChatWeblog(question, log, prior, ai) == Err(Raise(Validation, "日志内容不能为空"))
  {
  }

  /**
   * Every analysis validates before it asks: on an input that fails
   * validation, the outcome is the validation error whatever the AI service
   * would have answered.
   */
  lemma ValidationFirst(input: string, fileName: string, options: seq<string>, prior: Prior, ai: Ai, other: Ai)
    ensures ValidateHttpData(input).Fail? ==> AnalyzeTraffic(input, ai) == AnalyzeTraffic(input, other)
    ensures ValidateRequired(input, "编码字符串").Fail? ==> DecodeString(input, ai) == DecodeString(input, other)
    ensures ValidateJsCode(input).Fail? ==> AnalyzeJavaScript(input, ai) == AnalyzeJavaScript(input, other)
    ensures ValidateProcessData(input).Fail? ==> AnalyzeProcess(input, ai) == AnalyzeProcess(input, other)
    ensures IsBlank(input) ==> GenerateRegex(input, fileName, ai) == GenerateRegex(input, fileName, other)
    ensures IsBlank(input) ==> TranslateText(input, fileName, fileName, ai) == TranslateText(input, fileName, fileName, other)
    ensures ValidateFileContent(input, DefaultFileLimit).Fail? ==>
      DetectWebshell(input, fileName, ai) == DetectWebshell(input, fileName, other)
      && AnalyzeWebLogs(input, options, ai) == AnalyzeWebLogs(input, options, other)
    ensures ChatCheck(fileName, input).Fail? ==> ChatWeblog(fileName, input, prior, ai) == ChatWeblog(fileName, input, prior, other)
  {
  }

  /** The traffic verdict is read off the answer: an attack exactly when it declares 【分析结果】是. */
  lemma TrafficVerdict(httpData: string, ai: Ai)
    requires ValidateHttpData(httpData).Pass? && ai.chunked(TrafficTask, httpData).Ok?
    ensures var text := ai.chunked(TrafficTask, httpData).value;
      AnalyzeTraffic(httpData, ai) == Ok(Traffic(text, Contains(text, AttackMarker)))
  {
  }

  /** Failures of the AI service reach the caller as API exceptions, unchanged when they already are one. */
  lemma ServiceFailuresSurface(httpData: string, ai: Ai)
    requires ValidateHttpData(httpData).Pass? && ai.chunked(TrafficTask, httpData).Err?
    ensures var e := ai.chunked(TrafficTask, httpData).error;
      && AnalyzeTraffic(httpData, ai).Err?
      && AnalyzeTraffic(httpData, ai).error.IsApi()
      && (e.IsApi() ==> AnalyzeTraffic(httpData, ai).error == e)
  {
  }

  /**
   * The AI service over a configured `chat_completion`: `template(task)` is
   * the task's prompt, with "{content}" where the content goes.
   */
  function AiOf(svc: Orchestrator.Service, template: Task -> string): Ai
  {
    Ai((task, content) => Orchestrator.ChunkedCompletion(svc, template(task), content).result,
       task => Orchestrator.Complete(svc, template(task), []).result)
  }

  /**
   * A valid traffic capture too long to send whole, with room left for
   * chunks, always gets a report: failures of single chunks end up in the
   * text instead of in an exception.
   */
  lemma ChunkedTrafficReports(httpData: string, svc: Orchestrator.Service, template: Task -> string)
    requires ValidateHttpData(httpData).Pass?
    requires !Orchestrator.Direct(svc.model, template(TrafficTask), httpData)
    requires Orchestrator.Available(svc.model, template(TrafficTask)) > 0
    ensures AnalyzeTraffic(httpData, AiOf(svc, template)).Ok?
  {
    Orchestrator.ChunkedNeverFails(svc, template(TrafficTask), httpData);
  }
}
