/**
 * The error-handling decorators and response builders: how an exception
 * becomes an HTTP status and a JSON error body, and how the service layer
 * re-raises or wraps exceptions.
 */
module ErrorHandler {
  import opened Wrappers
  import opened Exceptions

  /** A JSON error body: "error", "error_code" and, when present, "details". */
  datatype ErrorBody = ErrorBody(error: string, errorCode: string, details: Option<Details>)

  /** A body together with the HTTP status it is returned with. */
  datatype Response = Response(body: ErrorBody, status: int)

  const InternalErrorMessage := "内部服务器错误"
  const ServiceFailurePrefix := "服务处理失败: "

  /** Python's `code or default`: an absent or empty code gives the default. */
  function CodeOr(code: Option<string>, default: string): (r: string)
    ensures code.Some? && code.value != [] ==> r == code.value
    ensures code.None? || code.value == [] ==> r == default
  {
    if code.Some? && code.value != [] then code.value else default
  }

  /**
   * The `handle_api_error` decorator applied to a raised exception: the first
   * matching `except` clause in the order ValidationError, ConfigurationError,
   * AIServiceError, APIException, Exception.
   */
  function HandleApiError(e: Exc): (r: Response)
    ensures r.status == 400 <==> e.IsA(Validation)
    ensures r.status == 503 <==> e.IsA(AIService)
    ensures r.status == 500 <==> !e.IsA(Validation) && !e.IsA(AIService)
    ensures e.IsApi() ==> r.body.error == e.message && r.body.details == Some(e.details)
    ensures e.IsApi() && e.code.Some? && e.code.value != [] ==> r.body.errorCode == e.code.value
    ensures !e.IsApi() ==> r == Response(ErrorBody(InternalErrorMessage, "INTERNAL_ERROR", None), 500)
  {
    match e
    case PlainExc(_) => Response(ErrorBody(InternalErrorMessage, "INTERNAL_ERROR", None), 500)
    case ApiExc(kind, message, code, details) =>
      var (default, status) :=
        if kind == Validation then ("VALIDATION_ERROR", 400)
        else if kind == Configuration then ("CONFIG_ERROR", 500)
        else if kind == AIService then ("AI_SERVICE_ERROR", 503)
        else ("API_ERROR", 500);
      Response(ErrorBody(message, CodeOr(code, default), Some(details)), status)
  }

  /** The error code `handle_api_error` uses when the exception carries none. */
  lemma DefaultCodes(e: Exc)
    requires e.IsApi() && (e.code.None? || e.code.value == [])
    ensures e.kind == Validation ==> HandleApiError(e).body.errorCode == "VALIDATION_ERROR"
    ensures e.kind == Configuration ==> HandleApiError(e) == Response(ErrorBody(e.message, "CONFIG_ERROR", Some(e.details)), 500)
    ensures e.kind == AIService ==> HandleApiError(e).body.errorCode == "AI_SERVICE_ERROR"
    ensures e.kind in {ApiBase, Authentication, RateLimit} ==> HandleApiError(e) == Response(ErrorBody(e.message, "API_ERROR", Some(e.details)), 500)
  {
  }

  /**
   * The `handle_service_error` decorator applied to a raised exception: API
   * exceptions are re-raised unchanged, anything else is wrapped in a plain
   * `APIException`.
   */
  function WrapServiceError(e: Exc): (r: Exc)
    ensures r.IsApi()
    ensures e.IsApi() ==> r == e
    ensures !e.IsApi() ==> r == Raise(ApiBase, ServiceFailurePrefix + e.Text())
  {
    if e.IsApi() then e else Raise(ApiBase, ServiceFailurePrefix + e.Text())
  }

  /**
   * A call under the `handle_service_error` decorator: a returned value passes
   * through, an API exception propagates unchanged, anything else is wrapped.
   */
  function Decorated<T>(outcome: Result<T, Exc>): (r: Result<T, Exc>)
    ensures r.Ok? <==> outcome.Ok?
    ensures r.Ok? ==> r.value == outcome.value
    ensures r.Err? ==> r.error.IsApi() && (outcome.error.IsApi() ==> r.error == outcome.error)
  {
    match outcome
    case Ok(v) => Ok(v)
    case Err(e) => Err(WrapServiceError(e))
  }

  /** Wrapping twice is wrapping once. */
  lemma WrapIdempotent(e: Exc)
    ensures WrapServiceError(WrapServiceError(e)) == WrapServiceError(e)
  {
  }

  /**
   * An unexpected exception that has gone through the service decorator never
   * reaches the route as INTERNAL_ERROR: it arrives as a generic API error
   * whose message names the original failure.
   */
  lemma ServiceFailureIsApiError(e: Exc)
    requires !e.IsApi()
    ensures HandleApiError(WrapServiceError(e)) == Response(ErrorBody(ServiceFailurePrefix + e.Text(), "API_ERROR", Some(map[])), 500)
  {
  }

  /** `ErrorHandler.format_validation_errors` */
  function FormatValidationErrors(errors: seq<string>): (r: ErrorBody)
    ensures r.errorCode == "VALIDATION_FAILED"
    ensures r.details.Some? && r.details.value.Keys == {"validation_errors"}
    ensures r.details.value["validation_errors"] == DList(errors)
  {
    ErrorBody("输入验证失败", "VALIDATION_FAILED", Some(map["validation_errors" := DList(errors)]))
  }

  /** `ErrorHandler.format_config_error` */
  function FormatConfigError(message: string): (r: ErrorBody)
    ensures r.errorCode == "CONFIG_ERROR" && r.error == "配置错误: " + message
    ensures r.details.Some? && r.details.value.Keys == {"suggestion"}
  {
    ErrorBody("配置错误: " + message, "CONFIG_ERROR", Some(map["suggestion" := DText("请检查配置文件或联系管理员")]))
  }

  /** `ErrorHandler.format_ai_service_error`: the API type is reported only when it is given and non-empty. */
  function FormatAiServiceError(message: string, apiType: Option<string>): (r: ErrorBody)
    ensures r.errorCode == "AI_SERVICE_ERROR" && r.error == "AI服务错误: " + message
    ensures r.details.Some? && "suggestion" in r.details.value
    ensures "api_type" in r.details.value <==> apiType.Some? && apiType.value != []
    ensures "api_type" in r.details.value ==> r.details.value["api_type"] == DText(apiType.value)
  {
    var details := map["suggestion" := DText("请检查网络连接和API配置")];
    var details := if apiType.Some? && apiType.value != [] then details["api_type" := DText(apiType.value)] else details;
    ErrorBody("AI服务错误: " + message, "AI_SERVICE_ERROR", Some(details))
  }

  /** `create_error_response`: the code defaults to UNKNOWN_ERROR, details appear only when non-empty. */
  function CreateErrorResponse(message: string, errorCode: Option<string>, status: int, details: Option<Details>): (r: Response)
    ensures r.status == status && r.body.error == message
    ensures r.body.errorCode == CodeOr(errorCode, "UNKNOWN_ERROR")
    ensures r.body.details.Some? <==> details.Some? && details.value != map[]
    ensures r.body.details.Some? ==> r.body.details == details
  {
    var d := if details.Some? && details.value != map[] then details else None;
    Response(ErrorBody(message, CodeOr(errorCode, "UNKNOWN_ERROR"), d), status)
  }
}
