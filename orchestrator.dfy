/**
 * `AIService`: the configured backend and `chat_completion_with_chunking`,
 * which sends a prompt whole when its estimate fits the model's budget, and
 * otherwise splits the content into chunks, asks about each chunk on its own,
 * labels every answer (or failure) with the chunk's number, joins them, and
 * asks for a summary when there are more than three.
 *
 * The HTTP backend is an oracle `backend(n, request)`: the reply to a request
 * posted after `n` earlier ones. Every request actually posted is logged, in
 * order, so the properties can speak of which prompts were sent.
 */
module Orchestrator {
  import opened Wrappers
  import opened Text
  import opened Tokens
  import opened Splitter
  import opened Exceptions
  import opened Config
  import opened Backend

  const Placeholder := "{content}"
  /** The tokens kept free for the chunk note and the response. */
  const BufferTokens := 2000
  const BlockSeparator := "\n\n"
  const SummaryHead := "请对以下分块分析结果进行总结和汇总：\n\n"
  const SummaryTail := "\n\n请提供一个综合性的分析总结，包括：\n1. 主要发现和威胁\n2. 整体安全状况评估\n3. 关键建议和处置方案"
  const PromptTooLong := "基础提示过长，无法进行分块处理"

  /** `base_prompt.replace("{content}", content)` */
  function Fill(base: string, content: string): string
  {
    ReplaceAll(base, Placeholder, content)
  }

  /** The prompt for chunk `i` of `n` (numbered from 1). */
  function ChunkPrompt(base: string, chunk: string, i: nat, n: nat): string
  {
    Fill(base, chunk) + "\n\n注意：这是第" + NatToDecimal(i) + "/" + NatToDecimal(n) + "部分内容。"
  }

  /** The labelled block for chunk `i`: its answer, or the text of the exception it raised. */
  function Block(i: nat, outcome: Result<string, Exc>): string
  {
    match outcome
    case Ok(answer) => "=== 第" + NatToDecimal(i) + "部分分析结果 ===\n" + answer
    case Err(e) => "=== 第" + NatToDecimal(i) + "部分分析失败 ===\n错误: " + e.Text()
  }

  function SummaryPrompt(combined: string): string
  {
    SummaryHead + combined + SummaryTail
  }

  function WithSummary(combined: string, summary: string): string
  {
    combined + "\n\n=== 综合分析总结 ===\n" + summary
  }

  /**
   * `chat_completion` as the chunking code sees it: the model it budgets for,
   * the exception raised before any request (if any), the request posted for
   * a prompt, and the outcome of a request posted after `n` earlier ones.
   */
  datatype Service = Service(
    model: string,
    check: Option<Exc>,
    request: string -> Request,
    answer: (nat, Request) -> Result<string, Exc>)

  /** The service a configuration gives over a backend. */
  function ServiceOf(config: APIConfig, backend: (nat, Request) -> Reply): Service
  {
    Service(config.model, Precheck(config), p => RequestFor(config, p), (n: nat, q: Request) => Backend.ChatCompletion(config, backend(n, q)))
  }

  /** The outcome of one or more calls, with the requests posted so far. */
  datatype Exchange = Exchange(result: Result<string, Exc>, sent: seq<Request>)

  /** One `chat_completion(prompt)` after the requests `sent`. */
  function Complete(svc: Service, prompt: string, sent: seq<Request>): Exchange
  {
    if svc.check.Some? then Exchange(Err(svc.check.value), sent)
    else
      var q := svc.request(prompt);
      Exchange(svc.answer(|sent|, q), sent + [q])
  }

  /** A request is posted exactly when the checks pass, and its outcome is the backend's reply to it, classified. */
  lemma CompleteOf(config: APIConfig, backend: (nat, Request) -> Reply, prompt: string, sent: seq<Request>)
    ensures var x := Complete(ServiceOf(config, backend), prompt, sent);
      && (Precheck(config).Some? ==> x == Exchange(Err(Precheck(config).value), sent))
      && (Precheck(config).None? ==> x.sent == sent + [RequestFor(config, prompt)])
      && (Precheck(config).None? ==> x.result == Backend.ChatCompletion(config, backend(|sent|, RequestFor(config, prompt))))
      && (x.result.Err? ==> x.result.error.IsApi())
  {
  }

  /** The blocks of the first `k` chunks and the requests posted for them. */
  datatype Progress = Progress(blocks: seq<string>, sent: seq<Request>)

  function Process(svc: Service, base: string, chunks: seq<string>, k: nat): Progress
    requires k <= |chunks|
  {
    if k == 0 then Progress([], [])
    else
      var p := Process(svc, base, chunks, k - 1);
      var x := Complete(svc, ChunkPrompt(base, chunks[k - 1], k, |chunks|), p.sent);
      Progress(p.blocks + [Block(k, x.result)], x.sent)
  }

  /** The budget left for content once the base prompt and the buffer are set aside; may be zero or negative. */
  function Available(model: string, base: string): int
  {
    MaxTokens(model) - Estimate(base) - BufferTokens
  }

  /** Whether the prompt goes whole: the estimate of base prompt and content together fits the budget. */
  predicate Direct(model: string, base: string, content: string)
  {
    Estimate(base + content) <= MaxTokens(model)
  }

  /** The chunks of the content, when it is chunked. */
  function ContentChunks(model: string, base: string, content: string): seq<string>
    requires Available(model, base) > 0
  {
    Chunks(content, Available(model, base))
  }

  /** The joined blocks, with a summary call when there are more than three. */
  function Finish(svc: Service, p: Progress): Exchange
  {
    var combined := JoinWith(p.blocks, BlockSeparator);
    if |p.blocks| > 3 then
      var x := Complete(svc, SummaryPrompt(combined), p.sent);
      if x.result.Ok? then Exchange(Ok(WithSummary(combined, x.result.value)), x.sent)
      else Exchange(Ok(combined), x.sent)
    else Exchange(Ok(combined), p.sent)
  }

  /** `chat_completion_with_chunking(base_prompt, content)` with the default chunk template. */
  function ChunkedCompletion(svc: Service, base: string, content: string): Exchange
  {
    if Direct(svc.model, base, content) then Complete(svc, Fill(base, content), [])
    else if Available(svc.model, base) <= 0 then Exchange(Err(AiError(PromptTooLong)), [])
    else
      var chunks := ContentChunks(svc.model, base, content);
      Finish(svc, Process(svc, base, chunks, |chunks|))
  }

  /** The request posted for chunk `i` (from 0) when the checks pass. */
  function ChunkRequest(svc: Service, base: string, chunks: seq<string>, i: nat): Request
    requires i < |chunks|
  {
    svc.request(ChunkPrompt(base, chunks[i], i + 1, |chunks|))
  }

  /** The block for chunk `i` (from 0) when the checks pass: the outcome of the `i`-th request. */
  function ChunkBlock(svc: Service, base: string, chunks: seq<string>, i: nat): string
    requires i < |chunks|
  {
    Block(i + 1, svc.answer(i, ChunkRequest(svc, base, chunks, i)))
  }

  lemma {:induction false} ProcessLength(svc: Service, base: string, chunks: seq<string>, k: nat)
    requires k <= |chunks|
    ensures |Process(svc, base, chunks, k).blocks| == k
  {
    if k > 0 {
      ProcessLength(svc, base, chunks, k - 1);
    }
  }

  /**
   * The chunk loop keeps every chunk apart: when the checks pass, chunk `i`
   * is sent as the `i`-th request with its own numbered prompt, and its block
   * reports that request's outcome, whatever happened to the others.
   */
  lemma {:induction false} ProcessWorking(svc: Service, base: string, chunks: seq<string>, k: nat)
    requires k <= |chunks| && svc.check.None?
    ensures var p := Process(svc, base, chunks, k);
      && |p.blocks| == k && |p.sent| == k
      && (forall i :: 0 <= i < k ==> p.sent[i] == ChunkRequest(svc, base, chunks, i))
      && (forall i :: 0 <= i < k ==> p.blocks[i] == ChunkBlock(svc, base, chunks, i))
  {
    ProcessLength(svc, base, chunks, k);
    if k > 0 {
      ProcessWorking(svc, base, chunks, k - 1);
    }
  }

  /** When the checks fail, nothing is sent and every block reports the check's error. */
  lemma {:induction false} ProcessBroken(svc: Service, base: string, chunks: seq<string>, k: nat)
    requires k <= |chunks| && svc.check.Some?
    ensures var p := Process(svc, base, chunks, k);
      && p.sent == []
      && forall i :: 0 <= i < |p.blocks| ==> p.blocks[i] == Block(i + 1, Err(svc.check.value))
  {
    ProcessLength(svc, base, chunks, k);
    if k > 0 {
      ProcessBroken(svc, base, chunks, k - 1);
    }
  }

  /** The summary request, when there is one, comes after the chunk requests. */
  lemma FinishSent(svc: Service, p: Progress)
    requires svc.check.None?
    ensures |Finish(svc, p).sent| == |p.sent| + (if |p.blocks| > 3 then 1 else 0)
    ensures Finish(svc, p).sent[..|p.sent|] == p.sent
  {
  }

  /** A prompt that fits is sent whole, as the only request, with every placeholder filled, and its outcome is returned as it is. */
  lemma DirectPathOneCall(config: APIConfig, backend: (nat, Request) -> Reply, base: string, content: string)
    requires Direct(config.model, base, content) && Precheck(config).None?
    ensures ChunkedCompletion(ServiceOf(config, backend), base, content).sent == [RequestFor(config, Fill(base, content))]
    ensures ChunkedCompletion(ServiceOf(config, backend), base, content).result ==
      Backend.ChatCompletion(config, backend(0, RequestFor(config, Fill(base, content))))
  {
    CompleteOf(config, backend, Fill(base, content), []);
  }

  /** When the base prompt leaves no room for content, the call fails before any request. */
  lemma FailFast(svc: Service, base: string, content: string)
    requires !Direct(svc.model, base, content) && Available(svc.model, base) <= 0
    ensures ChunkedCompletion(svc, base, content) == Exchange(Err(Raise(AIService, PromptTooLong)), [])
  {
  }

  /** Once the content is chunked, the call never fails: failures become blocks. */
  lemma ChunkedNeverFails(svc: Service, base: string, content: string)
    requires !Direct(svc.model, base, content) && Available(svc.model, base) > 0
    ensures ChunkedCompletion(svc, base, content).result.Ok?
  {
  }

  /**
   * When the checks pass, the chunked path posts one request per chunk, in
   * chunk order, and then a summary request exactly when there are more than
   * three chunks.
   */
  lemma ChunkedRequests(svc: Service, base: string, content: string)
    requires !Direct(svc.model, base, content) && Available(svc.model, base) > 0 && svc.check.None?
    ensures var chunks := ContentChunks(svc.model, base, content);
      var x := ChunkedCompletion(svc, base, content);
      && |x.sent| == |chunks| + (if |chunks| > 3 then 1 else 0)
      && forall i :: 0 <= i < |chunks| ==> x.sent[i] == ChunkRequest(svc, base, chunks, i)
  {
    var chunks := ContentChunks(svc.model, base, content);
    var p := Process(svc, base, chunks, |chunks|);
    ProcessWorking(svc, base, chunks, |chunks|);
    FinishSent(svc, p);
    var x := Finish(svc, p);
    assert ChunkedCompletion(svc, base, content) == x;
    forall i | 0 <= i < |chunks|
      ensures x.sent[i] == ChunkRequest(svc, base, chunks, i)
    {
      assert x.sent[i] == x.sent[..|p.sent|][i];
    }
  }

  /**
   * The answer is the chunks' blocks, in chunk order, joined by blank lines,
   * followed by the summary when there are more than three chunks and the
   * summary call succeeds; a failed summary leaves the joined blocks.
   */
  lemma ChunkedAnswer(svc: Service, base: string, content: string)
    requires !Direct(svc.model, base, content) && Available(svc.model, base) > 0
    ensures var chunks := ContentChunks(svc.model, base, content);
      var p := Process(svc, base, chunks, |chunks|);
      var combined := JoinWith(p.blocks, BlockSeparator);
      var x := ChunkedCompletion(svc, base, content);
      && |p.blocks| == |chunks|
      && (|chunks| <= 3 ==> x.result == Ok(combined))
      && (|chunks| > 3 ==>
            var s := Complete(svc, SummaryPrompt(combined), p.sent).result;
            x.result == Ok(if s.Ok? then WithSummary(combined, s.value) else combined))
  {
    var chunks := ContentChunks(svc.model, base, content);
    ProcessLength(svc, base, chunks, |chunks|);
  }

  class AIService {
    var config: APIConfig

    /** `AIService.__init__`: the API configuration as the configuration manager reads it. */
    constructor(manager: ConfigManager, env: Env)
      ensures config == GetApiConfig(manager.config, env)
    {
      config := GetApiConfig(manager.config, env);
    }

    /** `AIService.reload_config`: re-read the file, then take the API configuration from it. */
    method ReloadConfig(manager: ConfigManager, file: Option<Ini>, env: Env)
      modifies this, manager
      ensures manager.config == Merge(old(manager.config), if file.Some? then file.value else DefaultIni)
      ensures config == GetApiConfig(manager.config, env)
    {
      manager.LoadConfig(file);
      config := GetApiConfig(manager.config, env);
    }

    /** `AIService.chat_completion` after the requests `sent`. */
    method ChatCompletion(prompt: string, backend: (nat, Request) -> Reply, sent: seq<Request>) returns (result: Result<string, Exc>, posted: seq<Request>)
      ensures Exchange(result, posted) == Complete(ServiceOf(config, backend), prompt, sent)
    {
      var check := Precheck(config);
      if check.Some? {
        return Err(check.value), sent;
      }
      var request := RequestFor(config, prompt);
      var reply := backend(|sent|, request);
      result := Backend.ChatCompletion(config, reply);
      posted := sent + [request];
    }

    /** The loop over chunks in `chat_completion_with_chunking`: one labelled block per chunk, in order. */
    method ProcessChunks(basePrompt: string, chunks: seq<string>, backend: (nat, Request) -> Reply)
      returns (results: seq<string>, sent: seq<Request>)
      ensures Progress(results, sent) == Process(ServiceOf(config, backend), basePrompt, chunks, |chunks|)
    {
      results := [];
      sent := [];
      var i := 0;
      while i < |chunks|
        invariant 0 <= i <= |chunks|
        invariant Progress(results, sent) == Process(ServiceOf(config, backend), basePrompt, chunks, i)
      {
        var chunkPrompt := ChunkPrompt(basePrompt, chunks[i], i + 1, |chunks|);
        var outcome;
        outcome, sent := ChatCompletion(chunkPrompt, backend, sent);
        results := results + [Block(i + 1, outcome)];
        i := i + 1;
      }
    }

    /** `AIService.chat_completion_with_chunking` with the default chunk template. */
    method ChatCompletionWithChunking(basePrompt: string, content: string, backend: (nat, Request) -> Reply)
      returns (result: Result<string, Exc>, sent: seq<Request>)
      ensures Exchange(result, sent) == ChunkedCompletion(ServiceOf(config, backend), basePrompt, content)
    {
      ghost var svc := ServiceOf(config, backend);
      var totalTokens := Estimate(basePrompt + content);
      var maxTokens := MaxTokens(config.model);
      if totalTokens <= maxTokens {
        var fullPrompt := Fill(basePrompt, content);
        result, sent := ChatCompletion(fullPrompt, backend, []);
        assert Direct(svc.model, basePrompt, content);
        return;
      }
      var baseTokens := Estimate(basePrompt);
      var availableTokens := maxTokens - baseTokens - BufferTokens;
      assert availableTokens == Available(svc.model, basePrompt);
      if availableTokens <= 0 {
        return Err(AiError(PromptTooLong)), [];
      }
      var chunks := SplitTextByLines(content, availableTokens);
      assert chunks == ContentChunks(svc.model, basePrompt, content);
      var results;
      results, sent := ProcessChunks(basePrompt, chunks, backend);
      result, sent := FinishBlocks(results, sent, backend);
    }

    /** The end of `chat_completion_with_chunking`: join the blocks, and summarise more than three. */
    method FinishBlocks(results: seq<string>, sent: seq<Request>, backend: (nat, Request) -> Reply)
      returns (result: Result<string, Exc>, posted: seq<Request>)
      ensures Exchange(result, posted) == Finish(ServiceOf(config, backend), Progress(results, sent))
    {
      var combined := JoinWith(results, BlockSeparator);
      posted := sent;
      if |results| > 3 {
        var summary;
        summary, posted := ChatCompletion(SummaryPrompt(combined), backend, sent);
        if summary.Ok? {
          result := Ok(WithSummary(combined, summary.value));
        } else {
          result := Ok(combined);
        }
      } else {
        result := Ok(combined);
      }
    }
  }
}
