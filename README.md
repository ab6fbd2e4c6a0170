# LMAP security-analysis back end in Dafny

This project models the server side of LMAP, a Flask application that sends
security-analysis prompts (HTTP traffic, WebShells, web logs, JavaScript,
processes, translation) to a large-language-model API. The centre of the
model is `AIService.chat_completion_with_chunking`, whose pieces are:

- the token estimate;
- the line-based splitter, which hard-splits over-long lines;
- the orchestration of per-chunk calls, including failure blocks and the summary call;
- the classification of backend replies for DeepSeek, OpenRouter and Ollama.

Around it the model covers:

- the input validators;
- the INI-backed configuration manager, with environment overrides;
- the post-processing of the analysis answers;
- the exception-to-HTTP mapping of the error handler;
- the configuration controller, which masks secrets and validates before it writes;
- the log-size parser.

Modules, one per file:

| module | file | models |
|---|---|---|
| `Wrappers` | wrappers.dfy | `Option`, `Result`, `Outcome` (pass, or the message of a `ValidationError`) |
| `Text` | text.dfy | Python string behaviour: `strip`, ASCII `upper`/`lower`, `split('\n')`, `join`, `replace`, `in`, `int()` on ASCII decimal text |
| `Tokens` | tokens.dfy | `_estimate_tokens`, `_get_max_tokens` |
| `Splitter` | splitter.dfy | `_split_text_by_lines` |
| `Exceptions` | exceptions.dfy | the `APIException` hierarchy and other exceptions |
| `ErrorHandler` | error_handler.dfy | `handle_api_error`, `handle_service_error`, `ErrorHandler.format_*`, `create_error_response` |
| `Validators` | validators.dfy | `Validator` and `ConfigValidator` |
| `Config` | config.dfy | `APIConfig`, `ConfigManager` over a section map |
| `Backend` | backend.dfy | `_handle_response`, the Ollama reply, the `chat_completion` dispatch |
| `Orchestrator` | orchestrator.dfy | class `AIService`: `reload_config`, `chat_completion`, `chat_completion_with_chunking` |
| `Analysis` | analysis.dfy | `AnalysisService` |
| `ConfigController` | config_controller.dfy | `get_config`, `save_config` |
| `Logger` | logger.dfy | `parse_size` |

Modelling choices:

- **The backend is an oracle.** `backend(n, request)` is the reply to a request posted after `n` earlier ones. A reply is a timeout, a connection failure, another request failure, or a status with its text and its decoded JSON body.
  - Every request the orchestrator posts is logged in order.
  - The properties can therefore say how many requests were sent, and which.
- **`Orchestrator.Service`** is `chat_completion` as the chunking code sees it: the model, the check that fails before any request, the request built for a prompt, and the answer to a request.
  - `ServiceOf(config, backend)` builds it from a configuration.
  - `Orchestrator.CompleteOf` relates it to `Backend.ChatCompletion`.
- **The `AIService` class** keeps the configuration as a field, as the source does. `reload_config` re-reads the manager's file and replaces that field.
  - `ProcessChunks` is the loop over the chunks.
  - `ChatCompletionWithChunking` is the whole operation.
  - Each is proved equal to a function (`Process`, `ChunkedCompletion`) whose properties are proved as lemmas.
- **The splitter** is a `method` with the source's loop. It is proved equal to `Splitter.Chunks`, a fold over the lines.
  - The fold keeps ghost segments: a group of whole lines, or one line cut into windows.
  - The invariant on these segments gives losslessness and the budget facts.
- **The configuration** is a map from section to a map from option to value. Option names are lower-cased as `configparser` does. The environment is a map.
- **The analyses** take the AI service as a parameter: `chunked(task, content)` and `direct(task)`. A `Task` names the prompt and the values put into it. The prompt texts are not modelled.
- **`chat_completion_with_chunking`** always uses the default chunk template, which is what every caller passes.

## Model

| member | source | states |
|---|---|---|
| Tokens.Estimate | app/services/ai_service.py:223-233 | the estimate is the floor of (2·ideographs + other characters)/3, between a third and two thirds of the length |
| Tokens.EstimateAppend | app/services/ai_service.py:228-233 | the estimate of a concatenation is the sum of the parts' estimates, or one more |
| Tokens.EstimateZero | app/services/ai_service.py:228-233 | a text is estimated at 0 tokens exactly when its weight is at most 2 (so the empty text costs 0) |
| Tokens.ModelLimit | app/services/ai_service.py:238-247 | the limit is one of the table's values, with 65536 for unknown models |
| Tokens.MaxTokens | app/services/ai_service.py:248 | the budget is 60% of the model limit, rounded down |
| Tokens.MaxTokensTable | app/services/ai_service.py:238-248 | the budgets for gpt-4, gpt-3.5-turbo, claude-3 and for the default |
| Splitter.SplitTextByLines | app/services/ai_service.py:250-290 | the loop returns exactly `Chunks(text, maxTokens)` |
| Splitter.AppendWindows | app/services/ai_service.py:269-271 | the hard-split loop appends a line's windows of `max_tokens*4` characters |
| Splitter.SegmentsKeepLines | app/services/ai_service.py:257-288 | the chunks' lines are the text's lines in order, and each line group's estimates sum to at most the budget, while only lines over the budget are cut |
| Splitter.SegmentsReassemble | app/services/ai_service.py:252-288 | joining the segments' texts with "\n" gives back the input text |
| Splitter.WindowsCover | app/services/ai_service.py:269-271 | the windows of a line concatenate to the line; each is non-empty and at most the width, and all but the last have exactly the width |
| Splitter.CutReassembles | app/services/ai_service.py:269-271 | a hard-split line is recovered by concatenating its windows |
| Splitter.GluedTexts | app/services/ai_service.py:257-288 | each segment's chunks put back together (a cut line's windows concatenated) give that segment's text |
| Splitter.GluedFlatten | app/services/ai_service.py:257-288 | regrouping the chunks segment by segment keeps exactly their characters, in order |
| Splitter.ChunksReassemble | app/services/ai_service.py:250-290 | the returned chunks, put back together segment by segment and joined with "\n", give the text back |
| Splitter.FitsInOneChunk | app/services/ai_service.py:257-288 | a text whose estimate fits the budget is one chunk, unchanged |
| Splitter.ChunksNonEmpty | app/services/ai_service.py:286-290 | the splitter never returns an empty list |
| Splitter.EmptyTextOneChunk | app/services/ai_service.py:252-290 | the empty text gives the one chunk "" |
| Splitter.GroupMayExceedBudget | app/services/ai_service.py:275-284 | a chunk of grouped lines can estimate above the budget: only the sum of the line estimates is bounded |
| Exceptions.Raise | app/utils/exceptions.py:4-36 | a raised exception is an API exception of the given class carrying the message |
| Backend.RequestFor | app/services/ai_service.py:50-69 | the request goes to the configured URL, with the configured model and the prompt as the user message |
| Backend.AiError | app/services/ai_service.py:73-78 | transport failures are `AIServiceError`s with the message |
| Backend.HandleResponse | app/services/ai_service.py:153-188 | 401 gives `AuthenticationError`, 429 `RateLimitError`, any other non-200 status an `AIServiceError` naming the status; a 200 succeeds exactly with non-empty first-choice content, and returns it |
| Backend.OkResponseChecks | app/services/ai_service.py:169-188 | a 200 that is not JSON, that has no or empty choices, or whose content is null gives the matching `AIServiceError` (a null content counts as empty) |
| Backend.StripThink | app/services/ai_service.py:140 | removing think blocks never lengthens the text |
| Backend.StripThinkBlock | app/services/ai_service.py:140 | the first `<think>` up to the nearest `</think>` is removed, and scanning resumes after it |
| Backend.StripThinkNoTag | app/services/ai_service.py:140 | a text without `<think>` is unchanged |
| Backend.StripThinkUnclosed | app/services/ai_service.py:140 | an unpaired `<think>` stays |
| Backend.StripThinkEmptyBlock | app/services/ai_service.py:140 | an empty block vanishes |
| Backend.StripThinkSinglePass | app/services/ai_service.py:140 | removal is one left-to-right pass, so it is not idempotent: a block split around another leaves a new block behind |
| Backend.OllamaResponse | app/services/ai_service.py:130-144 | Ollama: a non-200 status raises with the status; a reply succeeds exactly with string `message.content`, returning it with think blocks removed and stripped; a missing content raises |
| Backend.CallBackend | app/services/ai_service.py:37-45 | dispatch by API type, and the timeout, connection and request-failure messages of each backend |
| Backend.Precheck | app/services/ai_service.py:33-45 | `chat_completion` fails before any request exactly when `validate()` reports errors (joined by "; ") or the API type is unsupported |
| Backend.ChatCompletion | app/services/ai_service.py:27-48 | a failed precheck is returned; otherwise the backend's outcome passes through `handle_service_error`, so every failure is an API exception |
| Backend.InvalidConfigSendsNothing | app/services/ai_service.py:33-45 | with an invalid configuration the outcome does not depend on the backend, and is an `AIServiceError` |
| Backend.UnauthorizedRaised | app/services/ai_service.py:156-157 | a 401 from DeepSeek or OpenRouter reaches the caller as `AuthenticationError` |
| Backend.UnauthorizedIsApiError | app/utils/error_handler.py:40-46 | that `AuthenticationError` is answered with status 500 and "API_ERROR" |
| Backend.OllamaNullContentWrapped | app/services/ai_service.py:138-141 | a null Ollama content is not a string: the type error is wrapped as "服务处理失败: …" |
| Orchestrator.CompleteOf | app/services/ai_service.py:27-48 | the service over a configuration posts nothing when the precheck fails and one request otherwise, with `chat_completion`'s outcome |
| Orchestrator.ProcessLength | app/services/ai_service.py:333-353 | one block per chunk |
| Orchestrator.ProcessWorking | app/services/ai_service.py:334-353 | with a passing precheck, request `i` is chunk `i`'s prompt with "第i/n部分", posted in chunk order, and block `i` is the labelled outcome of that request |
| Orchestrator.ProcessBroken | app/services/ai_service.py:348-353 | when every call fails before sending, nothing is posted and every block is a failure block |
| Orchestrator.FinishSent | app/services/ai_service.py:356-376 | the summary call is one more request exactly when there are more than three blocks, after the chunk requests |
| Orchestrator.DirectPathOneCall | app/services/ai_service.py:297-305 | when the estimate fits, one request with every "{content}" replaced is posted, and its outcome is returned unchanged |
| Orchestrator.FailFast | app/services/ai_service.py:311-317 | when the base prompt leaves no room, an `AIServiceError` is raised before any request |
| Orchestrator.ChunkedNeverFails | app/services/ai_service.py:348-376 | once chunked, the operation always returns text: chunk and summary failures become text |
| Orchestrator.ChunkedRequests | app/services/ai_service.py:320-370 | once chunked, one request per chunk in order, plus a summary request exactly when there are more than three chunks |
| Orchestrator.ChunkedAnswer | app/services/ai_service.py:356-376 | the answer is the blocks joined by "\n\n", followed by the summary when there are more than three chunks and it succeeds, and unchanged when it fails |
| Orchestrator.AIService.constructor | app/services/ai_service.py:17-19 | the service starts with the manager's API configuration |
| Orchestrator.AIService.ReloadConfig | app/services/ai_service.py:21-25 | the manager reloads its file, and the service takes the API configuration read from it |
| Orchestrator.AIService.ChatCompletion | app/services/ai_service.py:27-48 | one `chat_completion` call: its outcome and the requests posted |
| Orchestrator.AIService.ProcessChunks | app/services/ai_service.py:333-353 | the per-chunk loop produces exactly `Process`'s blocks and requests |
| Orchestrator.AIService.FinishBlocks | app/services/ai_service.py:355-376 | the join and the summary produce exactly `Finish` |
| Orchestrator.AIService.ChatCompletionWithChunking | app/services/ai_service.py:292-376 | the method produces exactly `ChunkedCompletion`'s answer and requests |
| Validators.ValidateRequired | app/utils/validators.py:12-15 | fails exactly on an empty or blank value, with "<field>不能为空" |
| Validators.ValidateUrl | app/utils/validators.py:18-33 | accepts exactly a URL starting with http:// or https:// in any case; the empty URL is reported as missing, any other as malformed |
| Validators.ValidateApiKey | app/utils/validators.py:36-50 | accepts exactly a non-blank key of stripped length ≥ 10 that starts with "sk-" for deepseek and "sk-or-" for openrouter |
| Validators.ValidateModelName | app/utils/validators.py:53-60 | accepts exactly a stripped length ≥ 3 |
| Validators.ValidateApiType | app/utils/validators.py:63-67 | accepts exactly deepseek, openrouter and ollama |
| Validators.ValidateFileContent | app/utils/validators.py:70-76 | accepts exactly non-empty content of at most the limit |
| Validators.ValidateHttpData | app/utils/validators.py:79-93 | accepts exactly non-blank data whose upper-cased, stripped first line contains an HTTP method name |
| Validators.ValidateJsCode | app/utils/validators.py:96-103 | accepts exactly a stripped length ≥ 10 |
| Validators.ValidateProcessData | app/utils/validators.py:106-114 | accepts exactly non-blank data with at least two lines once stripped |
| Validators.ValidateTextInput | app/utils/validators.py:117-127 | accepts exactly a stripped length in [2, limit] |
| Validators.ApiConfigReportsEveryFailure | app/utils/validators.py:134-159 | the report lists every failing check's message, in the order type, URL, key, model |
| Validators.ApiConfigAcceptsIff | app/utils/validators.py:134-159 | no errors exactly when the type, URL and model pass, and the key passes when the type needs one |
| Validators.ValidateTheme | app/utils/validators.py:162-170 | one error exactly when the theme is not light or dark |
| Config.APIConfig.Validate | app/config/config_manager.py:15-28 | no errors exactly when URL, model and (for deepseek/openrouter) key are non-blank; at most one error per field |
| Config.ValidateMessages | app/config/config_manager.py:15-28 | a blank URL is reported first, a missing key first when the URL is set, and a blank model last |
| Config.OnlyKeyMissing | app/config/config_manager.py:15-28 | a keyed configuration missing only its key reports exactly that |
| Config.GetConfigValue | app/config/config_manager.py:110-117 | a non-empty SECTION_KEY environment variable wins, then the stored option, then the fallback |
| Config.GetServerConfig | app/config/config_manager.py:145-151 | fails exactly when the port is not an integer literal in ASCII digits; debug is on exactly when the value lower-cases to "true" |
| Config.ServerDefaults | app/config/config_manager.py:145-151 | without a server section the defaults are 127.0.0.1, 5000, debug off |
| Config.SavedPortReadBack | app/config/config_manager.py:145-157 | a saved port is read back |
| Config.GetLoggingConfig | app/config/config_manager.py:136-143 | fails exactly when the backup count is not an integer literal in ASCII digits |
| Config.Set | app/config/config_manager.py:153-157 | the section is created if needed, the option takes the value, and no other option changes |
| Config.SaveThenGet | app/config/config_manager.py:110-157 | a saved option is read back unless the environment overrides it |
| Config.SaveApiStored | app/config/config_manager.py:162-167 | the type goes into [api], URL, key and model into the type's section |
| Config.SaveApiRoundTrip | app/config/config_manager.py:119-167 | the API configuration read after saving one is the one saved |
| Config.ReadApi | app/config/config_manager.py:119-128 | the type comes from [api], the rest from the section the type names |
| Config.DefaultApiConfig | app/config/config_manager.py:69-108 | the default file gives OpenRouter with an empty key |
| Config.DefaultConfigNeedsKey | app/config/config_manager.py:69-186 | the default file's only error is the missing OpenRouter key |
| Config.RequiredSectionsPresent | app/config/config_manager.py:180-184 | no missing-section errors exactly when api, ui, logging and server are present |
| Config.ConfigErrorsIff | app/config/config_manager.py:169-186 | no errors exactly when the API configuration validates and all four sections are present |
| Config.Merge | app/config/config_manager.py:62-67 | reading a file keeps old sections and lets the file's options win |
| Config.ConfigManager.constructor | app/config/config_manager.py:57-60 | a manager starts with the file, or the default configuration when there is none |
| Config.ConfigManager.LoadConfig | app/config/config_manager.py:62-67 | the file is merged in, or the default configuration when there is none |
| Config.ConfigManager.CreateDefaultConfig | app/config/config_manager.py:69-108 | the default configuration is read into the parser |
| Config.ConfigManager.SaveConfig | app/config/config_manager.py:153-157 | the new state is `Set` of the old |
| Config.ConfigManager.SaveApiConfig | app/config/config_manager.py:162-167 | the new state is the four writes of `SaveApi` |
| Config.ConfigManager.ValidateConfig | app/config/config_manager.py:169-186 | the loop returns the API errors followed by one error per missing required section |
| ErrorHandler.CodeOr | app/utils/error_handler.py:23 | an exception's non-empty error code overrides the default |
| ErrorHandler.HandleApiError | app/utils/error_handler.py:13-57 | 400 exactly for `ValidationError`, 503 exactly for `AIServiceError`, 500 otherwise; API exceptions keep message, details and their own code; other exceptions get the fixed internal-error body |
| ErrorHandler.DefaultCodes | app/utils/error_handler.py:19-46 | the default codes: VALIDATION_ERROR, CONFIG_ERROR, AI_SERVICE_ERROR, and API_ERROR for the rest, including authentication and rate-limit errors |
| ErrorHandler.WrapServiceError | app/utils/error_handler.py:60-78 | API exceptions are re-raised unchanged; others become `APIException("服务处理失败: " + str(e))` |
| ErrorHandler.WrapIdempotent | app/utils/error_handler.py:64-76 | wrapping twice is wrapping once |
| ErrorHandler.ServiceFailureIsApiError | app/utils/error_handler.py:40-76 | a wrapped plain exception is answered with 500, API_ERROR and empty details |
| ErrorHandler.Decorated | app/utils/error_handler.py:60-78 | successes pass unchanged, and every failure leaves the decorator as an API exception |
| ErrorHandler.FormatValidationErrors | app/utils/error_handler.py:84-93 | VALIDATION_FAILED, with the error list as the only detail |
| ErrorHandler.FormatConfigError | app/utils/error_handler.py:95-104 | CONFIG_ERROR with the prefixed message and a suggestion |
| ErrorHandler.FormatAiServiceError | app/utils/error_handler.py:106-117 | AI_SERVICE_ERROR; `api_type` is a detail exactly when one is given |
| ErrorHandler.CreateErrorResponse | app/utils/error_handler.py:135-145 | the code defaults to UNKNOWN_ERROR; details are included exactly when non-empty |
| ConfigController.MaskValue | app/controllers/config_controller.py:26-29 | the length is kept; over 8 characters, the first and last four are shown and the rest are stars; otherwise all stars |
| ConfigController.MaskHidesMiddle | app/controllers/config_controller.py:26-29 | values that differ only in their hidden characters are masked alike |
| ConfigController.Shown | app/controllers/config_controller.py:24-31 | what is shown has the value's length |
| ConfigController.MaskKeepsShape | app/controllers/config_controller.py:20-31 | the same sections and keys; values keep their length; values of non-secret keys and empty values are copied unchanged |
| ConfigController.GetConfig | app/controllers/config_controller.py:17-31 | the nested loops return exactly the masked configuration |
| ConfigController.Lookup | app/controllers/config_controller.py:56-62 | `dict.get`: found exactly when the key occurs, and then, names being distinct as in a parsed JSON object, with the value paired with it |
| ConfigController.SaveVerdict | app/controllers/config_controller.py:46-77 | empty data is rejected with "配置数据不能为空"; a rejection carries at least one error; saving requires both checks to pass |
| ConfigController.SavedIsValid | app/controllers/config_controller.py:55-77 | when saving, a given API type's configuration and a given theme are valid |
| ConfigController.SectionWritesOfObject | app/controllers/config_controller.py:80-83 | the options written for a section are exactly those of the one posted object of that name |
| ConfigController.ValidatedApiConfigIsValid | app/controllers/config_controller.py:64-67 | a configuration accepted by `validate_api_config` also passes `APIConfig.validate` |
| ConfigController.LastWritten | app/controllers/config_controller.py:80-83 | the last value written to an option is one of the values posted for it; none exactly when no posted key matches |
| ConfigController.WriteAllStored | app/controllers/config_controller.py:80-83 | after the writes, an option holds the last value posted for it, and other options are unchanged |
| ConfigController.CheckPayload | app/controllers/config_controller.py:52-74 | the API errors followed by the theme errors, or an exception |
| ConfigController.CheckApi | app/controllers/config_controller.py:55-67 | nothing unless `api.type` is non-empty, then `validate_api_config` on the type's section; an exception when a section read is not an object |
| ConfigController.CheckTheme | app/controllers/config_controller.py:69-74 | nothing unless `default_theme` is non-empty, then `validate_theme`; an exception when `ui` is not an object |
| ConfigController.WriteSections | app/controllers/config_controller.py:80-83 | the loops perform exactly `WriteAll` |
| ConfigController.SaveConfig | app/controllers/config_controller.py:42-94 | the outcome is `SaveVerdict`; when saving, every posted option is written and the service is reloaded; otherwise nothing changes |
| Analysis.FirstFailure | app/services/analysis_service.py:398-400 | validations run in order and the first failure is raised |
| Analysis.Analysis | app/services/analysis_service.py:15-52 | a validation failure is raised before the AI call; an AI failure surfaces through `handle_service_error`; otherwise the report |
| Analysis.FirstLevel | app/services/analysis_service.py:237-245 | unknown exactly when no level is declared, otherwise a declared level |
| Analysis.ThreatLevel | app/services/analysis_service.py:236-245 | the level is one of 高危, 中危, 低危, 无威胁, 未知 |
| Analysis.ThreatLevelPriority | app/services/analysis_service.py:237-245 | when a level is declared, the result is a declared level at least as high in priority |
| Analysis.TrafficVerdict | app/services/analysis_service.py:39-52 | the traffic report flags an attack exactly when the answer contains 【分析结果】是 |
| Analysis.ServiceFailuresSurface | app/services/analysis_service.py:15-44 | an AI failure reaches the caller as an API exception, unchanged when it already is one |
| Analysis.ValidationFirst | app/services/analysis_service.py:19-400 | whenever validation fails, the outcome does not depend on the AI service (in all eight analyses and the chat) |
| Analysis.ChunkedTrafficReports | app/services/analysis_service.py:39-52 | long traffic always gets a report: chunk failures end up in the text |
| Analysis.AnalysisTasks | app/services/analysis_service.py:269-277 | the appends produce exactly `SelectedTasks` |
| Analysis.SelectedTasks | app/services/analysis_service.py:269-277 | no more tasks than known options |
| Analysis.SelectedInOrder | app/services/analysis_service.py:269-277 | of any two listed tasks, the earlier belongs to an earlier known option: the fixed order, with no task twice |
| Analysis.SelectedTasksExact | app/services/analysis_service.py:269-277 | a task is listed exactly when its option is selected |
| Analysis.SelectedFrom | app/services/analysis_service.py:269-277 | every listed task is a known option's task |
| Analysis.SelectedTasksKnownOnly | app/services/analysis_service.py:269-277 | only the known option names matter |
| Analysis.UnknownOptionsIgnored | app/services/analysis_service.py:269-277 | adding unknown option names changes nothing |
| Analysis.DefaultTasks | app/services/analysis_service.py:263-277 | no options means the first three tasks |
| Analysis.ChatCheck | app/services/analysis_service.py:317-326 | the chat passes exactly with a question of stripped length ≥ 2 and at most 1000 characters, and a non-blank log |
| Analysis.ChatRefusals | app/services/analysis_service.py:317-324 | the blank question, the over-long question and the blank log are refused with their own `ValidationError`s |
| Analysis.ChatAnswer | app/services/analysis_service.py:363-379 | a non-blank answer is kept; a blank one becomes the apology; a failure becomes the apology naming the error |
| Analysis.ChatAnswerNonBlank | app/services/analysis_service.py:363-379 | whatever the AI service returns, the chat's answer is not blank |
| Analysis.ChatNeverFails | app/services/analysis_service.py:363-385 | a valid chat always returns a non-blank answer |
| Analysis.ScalarResultFallsBack | app/services/analysis_service.py:329-339 | a null, number or boolean `result` is answered as if the previous analysis were "暂无分析结果" |
| Logger.ParseSizeScaled | app/utils/logger.py:63-72 | a number with a KB, MB or GB suffix in any case, with white space around it, is that many 1024, 1024² or 1024³ bytes |
| Logger.ParseSizeBytes | app/utils/logger.py:73-75 | a bare number is a count of bytes |
| Logger.ParseSizeRejectsBytesSuffix | app/utils/logger.py:73-75 | a number followed by "B" alone raises |
| Text.JoinSplit | app/services/ai_service.py:252 | joining the split lines with "\n" gives back the text |
| Text.DecimalRoundTrip | app/config/config_manager.py:149 | `int()` reads back the decimal form of a number |

## Left out

- HTTP and JSON: headers, the temperature, the timeout value and the request body's other fields are not modelled. JSON bodies are reduced to the fields the classification reads; a JSON value that is not an object at the top level is not modelled. The configuration payload is the object after parsing, so its names are distinct (`ConfigController.Payload`); how the parser resolves a name repeated in the document (the last value wins) is not modelled.
- The texts of CPython's own exceptions are fixed as CPython before 3.12 words them: `Backend.NullContentError` is "expected string or bytes-like object" (3.12 and later append ", got 'NoneType'"), and `Config.IntError` puts the text between single quotes, which differs from `repr` for text holding a quote, a backslash or a control character.
- `Tokens.Estimate`: the source divides in floating point; the model uses the exact integer `(2·ideographs + others) / 3`, which can differ from the float result by one at exact boundaries. `Tokens.MaxTokens` likewise uses `limit·6/10` for `int(limit * 0.6)`.
- The custom `chunk_prompt_template` branch (`str.format`) of `chat_completion_with_chunking` is not modelled; no caller passes a template.
- `test_connection` and `get_api_info` are not modelled; they format results of `chat_completion` and the configuration for display.
- Logging (`self.logger`, `setup_logger`, `log_request_info`) has no effect on results and is left out.
- File and environment I/O: the configuration file is a section map, the environment a map. Writing the file in `save_config` and `create_default_config` is not modelled; `ReloadConfig` is given the file's content as the manager would read it.
- `configparser` details: the DEFAULT section, interpolation and the file syntax are not modelled; option names are lower-cased, section names are not.
- `Validators.ValidateUrl`: weaker than the source, because only the empty URL and the http/https scheme are checked, not the host, port and path grammar of the regular expression.
- `Text.Upper` and `Text.Lower` map ASCII letters only; other characters are unchanged.
- Text.ParseInt: ASCII digits only. Python's `int()` also accepts every other Unicode decimal digit (`int("５０００") == 5000`); such text is rejected here.
- Config.GetServerConfig: a stored port in non-ASCII decimal digits fails here, where `int()` reads it (see Text.ParseInt).
- Config.GetLoggingConfig: a stored backup count in non-ASCII decimal digits fails here, where `int()` reads it (see Text.ParseInt).
- Logger.ParseSize: a size in non-ASCII decimal digits is rejected here, where `int()` reads it (see Text.ParseInt).
- `get_config`'s exception handler is not modelled: reading the section map cannot fail.
- `save_config`: the exception handler is modelled only for the failure the checks can raise, a section read with `.get` that is not an object (`Failed`, answered with 500). Posted options are strings, so `str(value)` of numbers, booleans and nested values is not modelled, and a non-object `api`/`ui` section with an empty type is treated alike.
- `Analysis.ChatWeblog`: the outer generic handler is not modelled, as nothing in the model can raise there. `analysis_result` is a dictionary with or without `result`, or a value with its printed form; a `result` that is a string is quoted as it is, a list or object through its printed form, and a null, number or boolean, whose `len` raises, falls back to "暂无分析结果" (`Analysis.Entry`). The printed forms are parameters, not derived from JSON values.
- The analyses' prompt texts are not modelled; a `Task` stands for each prompt and the values in it. The requests posted by the analyses are not tracked beyond the orchestrator.
- The Flask routes (`analysis_controller`, `app.py`) are not modelled; among them is the option-name check in `analysis_controller` whose names (异常行为, 访问统计) select no task in `analyze_web_logs`, which `Analysis.UnknownOptionsIgnored` covers.
- Concurrency: one sequential caller; the global singletons are the objects passed to each method.
