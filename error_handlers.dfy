// The `MedicalReportException` hierarchy, `UnifiedErrorHandler` and
// `ErrorResponseFactory` (error_handlers.py): one envelope shape for every
// kind of failure.

module ErrorHandlers {
  import opened Common

  /** A `MedicalReportException`: message, code and details. */
  datatype MedicalReportException = MedicalReportException(
    message: string,
    errorCode: string,
    details: map<string, string>)

  /** `if field:` -- None and the empty string are falsy. */
  predicate Given(o: Option<string>)
  {
    o.Some? && o.value != ""
  }

  /** The details a subclass records: one key when its argument is truthy. */
  function OneDetail(key: string, o: Option<string>): (d: map<string, string>)
    ensures Given(o) ==> d == map[key := o.value]
    ensures !Given(o) ==> d == map[]
  {
    if Given(o) then map[key := o.value] else map[]
  }

  function NewValidationError(message: string, field: Option<string>): (e: MedicalReportException)
    ensures e.message == message && e.errorCode == "400"
    ensures e.details == OneDetail("field", field)
  {
    MedicalReportException(message, "400", OneDetail("field", field))
  }

  function NewDatabaseError(message: string, operation: Option<string>): (e: MedicalReportException)
    ensures e.message == message && e.errorCode == "500"
    ensures e.details == OneDetail("operation", operation)
  {
    MedicalReportException(message, "500", OneDetail("operation", operation))
  }

  function NewLlmError(message: string, model: Option<string>): (e: MedicalReportException)
    ensures e.message == message && e.errorCode == "503"
    ensures e.details == OneDetail("model", model)
  {
    MedicalReportException(message, "503", OneDetail("model", model))
  }

  /** The SQLAlchemy exception classes the handler tells apart. */
  datatype SqlKind = Integrity | Operational | OtherSql

  /** What `create_error_response` may be given. */
  datatype Failure =
    | Message(text: string)
    | Medical(exc: MedicalReportException)
    | Sql(kind: SqlKind)
    | Http(statusCode: int, detail: string)
    | Other(text: string)

  /** The envelope; `details` is present only for a `MedicalReportException`. */
  datatype Envelope = Envelope(
    code: string,
    cardNo: string,
    error: string,
    message: string,
    details: Option<map<string, string>>,
    processedAt: string)

  /** `_handle_database_error`: (message, code). */
  function DatabaseErrorText(kind: SqlKind): (r: (string, string))
  {
    match kind
    case Integrity => ("数据完整性约束违反", "400")
    case Operational => ("数据库连接或操作错误", "503")
    case OtherSql => ("数据库操作失败", "500")
  }

  /** The message a branch uses when no context is given. */
  function BranchDefault(f: Failure): string
  {
    match f
    case Message(_) => "操作失败"
    case Medical(_) => "医疗报告处理异常"
    case Sql(_) => "数据库操作失败"
    case Http(_, _) => "HTTP请求异常"
    case Other(_) => "系统异常"
  }

  /** `context or default`. */
  function OrDefault(context: Option<string>, default: string): string
  {
    if Given(context) then context.value else default
  }

  /** `create_error_response`; `now` is the `utcnow().isoformat()` text. */
  function CreateErrorResponse(cardNo: string, error: Failure, context: Option<string>, now: string): (r: Envelope)
    ensures r.cardNo == cardNo && r.processedAt == now
    ensures r.message == OrDefault(context, BranchDefault(error))
    ensures r.details.Some? <==> error.Medical?
    ensures error.Message? ==> r.code == "500" && r.error == error.text
    ensures error.Medical? ==> r.code == error.exc.errorCode && r.error == error.exc.message &&
                               r.details == Some(error.exc.details)
    ensures error.Sql? ==> (r.error, r.code) == DatabaseErrorText(error.kind)
    ensures error.Http? ==> r.code == IntToString(error.statusCode) && r.error == error.detail
    ensures error.Other? ==> r.code == "500" && r.error == "服务器内部错误"
  {
    var message := OrDefault(context, BranchDefault(error));
    match error
    case Message(text) => Envelope("500", cardNo, text, message, None, now)
    case Medical(e) => Envelope(e.errorCode, cardNo, e.message, message, Some(e.details), now)
    case Sql(kind) =>
      var (text, code) := DatabaseErrorText(kind);
      Envelope(code, cardNo, text, message, None, now)
    case Http(status, detail) => Envelope(IntToString(status), cardNo, detail, message, None, now)
    case Other(_) => Envelope("500", cardNo, "服务器内部错误", message, None, now)
  }

  /** The code of an HTTP envelope reads back as the exception's status. */
  lemma HttpCodeRoundTrip(cardNo: string, status: int, detail: string, context: Option<string>, now: string)
    ensures ParseInt(CreateErrorResponse(cardNo, Http(status, detail), context, now).code) == Some(status)
  {
    ParseIntToString(status);
  }

  /** Apart from an HTTP status or an exception's own code, every envelope
      carries one of the three codes the hierarchy uses. */
  lemma EnvelopeCodes(cardNo: string, error: Failure, context: Option<string>, now: string)
    requires !error.Http? && !error.Medical?
    ensures CreateErrorResponse(cardNo, error, context, now).code in {"400", "500", "503"}
  {
    if error.Sql? {
      assert DatabaseErrorText(error.kind).1 in {"400", "500", "503"};
    }
  }

  /** `ErrorResponseFactory.validation_error`. */
  function ValidationErrorResponse(cardNo: string, message: string, field: Option<string>, now: string): (r: Envelope)
    ensures r.code == "400" && r.cardNo == cardNo && r.error == message
    ensures r.message == "数据验证失败" && r.details == Some(OneDetail("field", field))
  {
    CreateErrorResponse(cardNo, Medical(NewValidationError(message, field)), Some("数据验证失败"), now)
  }

  /** `ErrorResponseFactory.database_error`: the SQL error itself is only
      logged; the envelope names the operation. */
  function DatabaseErrorResponse(cardNo: string, operation: string, now: string): (r: Envelope)
    ensures r.code == "500" && r.cardNo == cardNo && r.error == operation + "失败"
    ensures r.message == "医疗报告处理异常"
    ensures r.details == Some(OneDetail("operation", Some(operation)))
  {
    CreateErrorResponse(cardNo, Medical(NewDatabaseError(operation + "失败", Some(operation))), None, now)
  }

  /** `ErrorResponseFactory.llm_error`: the cause is only logged. */
  function LlmErrorResponse(cardNo: string, model: Option<string>, now: string): (r: Envelope)
    ensures r.code == "503" && r.cardNo == cardNo && r.error == "AI分析服务暂时不可用"
    ensures r.message == "医疗报告处理异常" && r.details == Some(OneDetail("model", model))
  {
    CreateErrorResponse(cardNo, Medical(NewLlmError("AI分析服务暂时不可用", model)), None, now)
  }

  /** `ErrorResponseFactory.processing_error`: the string branch. */
  function ProcessingErrorResponse(cardNo: string, message: string, context: Option<string>, now: string): (r: Envelope)
    ensures r.code == "500" && r.cardNo == cardNo && r.error == message
    ensures r.message == OrDefault(context, "操作失败") && r.details.None?
  {
    CreateErrorResponse(cardNo, Message(message), context, now)
  }
}
