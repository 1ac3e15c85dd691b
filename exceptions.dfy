// The `MedicalReportError` hierarchy and its `ErrorHandler`
// (exceptions.py): exception values and the envelopes and HTTP errors
// built from them.

module Exceptions {
  import opened Common

  /** Which subclass of `MedicalReportError` was raised, with the attribute
      that subclass adds. `Base` carries the code given to the base
      constructor. */
  datatype MedicalKind =
    | Base(code: string)
    | Database(operation: string)
    | LlmAnalysis(modelName: string)
    | DataValidation(fieldName: string)
    | LangChain(chainType: string)

  datatype MedicalReportError = MedicalReportError(
    kind: MedicalKind,
    message: string,
    cardNo: Option<string>)

  /** Any exception a handler may be given: one of the hierarchy, a
      `ValueError`, a `ConnectionError`, or something else; the text is
      `str(e)`. */
  datatype Raised =
    | Medical(err: MedicalReportError)
    | ValueErr(text: string)
    | ConnectionErr(text: string)
    | OtherErr(text: string)

  /** `str(e)`: a hierarchy member passes its message to `Exception`. */
  function Text(e: Raised): string
  {
    match e
    case Medical(m) => m.message
    case ValueErr(t) => t
    case ConnectionErr(t) => t
    case OtherErr(t) => t
  }

  /** The `error_code` attribute: each subclass fixes its own. */
  function ErrorCode(k: MedicalKind): string
  {
    match k
    case Base(c) => c
    case Database(_) => "DATABASE_ERROR"
    case LlmAnalysis(_) => "LLM_ANALYSIS_ERROR"
    case DataValidation(_) => "DATA_VALIDATION_ERROR"
    case LangChain(_) => "LANGCHAIN_ERROR"
  }

  const UnknownErrorCode: string := "UNKNOWN_ERROR"

  /** `MedicalReportError(message, card_no)` with the default code. */
  function NewMedicalReportError(message: string, cardNo: Option<string>): (e: MedicalReportError)
    ensures ErrorCode(e.kind) == UnknownErrorCode
    ensures e.message == message && e.cardNo == cardNo
  {
    MedicalReportError(Base(UnknownErrorCode), message, cardNo)
  }

  /** The subclasses' codes are fixed and pairwise distinct, and differ from
      the default: the code tells which subclass raised. */
  lemma SubclassCodesDistinct(k1: MedicalKind, k2: MedicalKind)
    requires !k1.Base? && !k2.Base?
    requires ErrorCode(k1) == ErrorCode(k2)
    ensures k1.Database? == k2.Database? && k1.LlmAnalysis? == k2.LlmAnalysis?
    ensures k1.DataValidation? == k2.DataValidation? && k1.LangChain? == k2.LangChain?
    ensures ErrorCode(k1) != UnknownErrorCode
  {
    if k1.Database? {
      assert ErrorCode(k1)[0] == 'D' && ErrorCode(k1)[1] == 'A';
    } else if k1.LlmAnalysis? {
      assert ErrorCode(k1)[0] == 'L' && ErrorCode(k1)[1] == 'L';
    } else if k1.DataValidation? {
      assert ErrorCode(k1)[0] == 'D' && ErrorCode(k1)[1] == 'A' && ErrorCode(k1)[4] == '_';
    } else {
      assert ErrorCode(k1)[0] == 'L' && ErrorCode(k1)[1] == 'A';
    }
  }

  /** The envelope `create_error_response` returns. */
  datatype ErrorResponse = ErrorResponse(
    code: string,
    cardNo: string,
    error: string,
    errorCode: string,
    message: string,
    processedAt: string)

  const SupportMessage: string := "请联系技术支持或稍后重试"
  const DefaultFailureMessage: string := "处理失败"

  /** `create_error_response`; `now` is the `utcnow().isoformat()` text. */
  function CreateErrorResponse(cardNo: string, error: Raised, defaultMessage: string, now: string): (r: ErrorResponse)
    ensures r.code == "500" && r.cardNo == cardNo && r.message == SupportMessage && r.processedAt == now
    ensures error.Medical? ==> r.errorCode == ErrorCode(error.err.kind) && r.error == error.err.message
    ensures error.ValueErr? ==> r.errorCode == "VALIDATION_ERROR" && r.error == "数据格式错误"
    ensures error.ConnectionErr? ==> r.errorCode == "CONNECTION_ERROR" && r.error == "服务连接失败"
    ensures error.OtherErr? ==> r.errorCode == "INTERNAL_ERROR" && r.error == defaultMessage
  {
    var (code, message) :=
      match error
      case Medical(m) => (ErrorCode(m.kind), m.message)
      case ValueErr(_) => ("VALIDATION_ERROR", "数据格式错误")
      case ConnectionErr(_) => ("CONNECTION_ERROR", "服务连接失败")
      case OtherErr(_) => ("INTERNAL_ERROR", defaultMessage);
    ErrorResponse("500", cardNo, message, code, SupportMessage, now)
  }

  /** `HTTPException(status_code, detail)`. */
  datatype HttpError = HttpError(statusCode: int, detail: string)

  const DefaultHttpDetail: string := "服务器内部错误"

  /** `create_http_exception`: the status is kept; a `ConnectionError`
      gets the default detail like any other foreign exception. */
  function CreateHttpException(statusCode: int, error: Raised, defaultDetail: string): (h: HttpError)
    ensures h.statusCode == statusCode
    ensures h.detail == (if error.Medical? then error.err.message
                         else if error.ValueErr? then "请求数据格式错误"
                         else defaultDetail)
  {
    match error
    case Medical(m) => HttpError(statusCode, m.message)
    case ValueErr(_) => HttpError(statusCode, "请求数据格式错误")
    case _ => HttpError(statusCode, defaultDetail)
  }

  /** `log_and_handle_database_error` (and `handle_database_error`). */
  function HandleDatabaseError(operation: string, cardNo: string, error: Raised): (e: MedicalReportError)
    ensures e.kind == Database(operation) && e.cardNo == Some(cardNo)
    ensures e.message == "数据库" + operation + "操作失败: " + Text(error)
  {
    MedicalReportError(Database(operation), "数据库" + operation + "操作失败: " + Text(error), Some(cardNo))
  }

  /** `log_and_handle_llm_error` (and `handle_llm_error`). */
  function HandleLlmError(modelName: string, cardNo: string, error: Raised): (e: MedicalReportError)
    ensures e.kind == LlmAnalysis(modelName) && e.cardNo == Some(cardNo)
    ensures e.message == "大模型" + modelName + "分析失败: " + Text(error)
  {
    MedicalReportError(LlmAnalysis(modelName), "大模型" + modelName + "分析失败: " + Text(error), Some(cardNo))
  }

  /** `log_and_handle_langchain_error` (and `handle_langchain_error`). */
  function HandleLangchainError(chainType: string, cardNo: string, error: Raised): (e: MedicalReportError)
    ensures e.kind == LangChain(chainType) && e.cardNo == Some(cardNo)
    ensures e.message == "LangChain " + chainType + " 执行失败: " + Text(error)
  {
    MedicalReportError(LangChain(chainType), "LangChain " + chainType + " 执行失败: " + Text(error), Some(cardNo))
  }

  /** Handling then answering: the envelope of a handled error carries the
      subclass's code and the wrapped message. */
  lemma HandledErrorResponse(chainType: string, cardNo: string, error: Raised, now: string)
    ensures var r := CreateErrorResponse(cardNo, Medical(HandleLangchainError(chainType, cardNo, error)),
                                         DefaultFailureMessage, now);
            r.errorCode == "LANGCHAIN_ERROR" && Contains(r.error, Text(error))
  {
    ContainsSuffix("LangChain " + chainType + " 执行失败: ", Text(error));
  }
}
