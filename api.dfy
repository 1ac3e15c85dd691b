// The FastAPI layer (api.py:297-789): the prompt `analyze_with_llm` sends,
// the legacy error envelope, the date defaulting and request mapping of
// the four report endpoints, and the `/compare-reports` endpoint.

module Api {
  import opened Common
  import opened Models
  import opened LlmCache
  import opened ReportService
  import DatabaseService
  import Exceptions
  import ErrorHandlers
  import LangchainService

  // ---------------------------------------------------------------------
  // analyze_with_llm (api.py:297-430)
  // ---------------------------------------------------------------------

  /** The expert the prompt addresses, by `report_type`. */
  datatype Persona =
    | LabExpert
    | MicrobiologyExpert
    | ImagingExpert
    | PathologyExpert
    | GeneralExpert(reportType: string)

  function PersonaFor(reportType: string): Persona
  {
    if reportType == "routineLab" then LabExpert
    else if reportType == "microbiology" then MicrobiologyExpert
    else if reportType == "examination" then ImagingExpert
    else if reportType == "pathology" then PathologyExpert
    else GeneralExpert(reportType)
  }

  /** The four analysis types have their own expert; any other type gets
      the general one, which names the type. */
  lemma PersonaByType(reportType: string)
    ensures PersonaFor(reportType).GeneralExpert? <==>
            reportType !in {"routineLab", "microbiology", "examination", "pathology"}
    ensures PersonaFor(reportType).GeneralExpert? ==> Heading(PersonaFor(reportType)) == "以下" + reportType + "报告："
  {
  }

  function Role(p: Persona): string
  {
    match p
    case LabExpert => "作为检验医学专家，"
    case MicrobiologyExpert => "作为微生物感染科专家，"
    case ImagingExpert => "作为影像学专家，"
    case PathologyExpert => "作为病理学专家，"
    case GeneralExpert(_) => "作为医疗AI专家，"
  }

  /** What kind of report the prompt says it is. */
  function Subject(p: Persona): string
  {
    match p
    case LabExpert => "常规检验"
    case MicrobiologyExpert => "微生物检验"
    case ImagingExpert => "检查"
    case PathologyExpert => "病理"
    case GeneralExpert(t) => t
  }

  /** `if historical_report:` -- None and `{}` are falsy. */
  predicate HasHistory(history: Option<map<string, Value>>)
  {
    history.Some? && history.value != map[]
  }

  function AnalysisContext(history: Option<map<string, Value>>): string
  {
    if HasHistory(history) then "对比分析" else "首次分析"
  }

  function CurrentPart(data: map<string, Value>, dump: map<string, Value> -> string): string
  {
    "当前报告：" + dump(data) + "\n"
  }

  function HistoryPart(history: Option<map<string, Value>>, dump: map<string, Value> -> string): string
  {
    if HasHistory(history) then "历史报告：" + dump(history.value) else ""
  }

  /** `data_section`; `dump` is `json.dumps(..., ensure_ascii=False, indent=2)`. */
  function DataSection(data: map<string, Value>, history: Option<map<string, Value>>,
                       dump: map<string, Value> -> string): string
  {
    CurrentPart(data, dump) + HistoryPart(history, dump)
  }

  /** The numbered analysis points, each ending with a newline. */
  function Points(p: Persona, withHistory: bool): string
  {
    match p
    case LabExpert =>
      "1. 异常指标识别及临床意义" + (if withHistory then "和变化趋势" else "")
        + "\n2. 疾病风险评估" + (if withHistory then "和进展评价" else "")
        + "\n3. 诊疗建议和生活指导\n"
    case MicrobiologyExpert =>
      "1. 病原菌识别及致病性评估" + (if withHistory then "及变化趋势" else "")
        + "\n2. 药敏结果及耐药性分析" + (if withHistory then "及变化" else "")
        + "\n3. 感染控制" + (if withHistory then "效果评估和" else "") + "治疗建议\n"
    case ImagingExpert =>
      "1. 客观所见解读" + (if withHistory then "及变化对比" else "")
        + "\n2. 主观提示的临床意义" + (if withHistory then "及变化" else "")
        + "\n3. 诊断" + (if withHistory then "及进展" else "和鉴别诊断") + "建议\n"
    case PathologyExpert =>
      "1. 病理形态学特征" + (if withHistory then "及变化" else "")
        + "解读\n2. 诊断及临床意义" + (if withHistory then "、进展评估" else "")
        + "\n3. 预后评估和治疗建议\n"
    case GeneralExpert(_) =>
      "1. 关键指标解读和异常识别\n2. 临床意义分析\n3. 后续处理建议\n"
  }

  /** The closing note only lab and microbiology prompts carry. */
  function NoteText(p: Persona, withHistory: bool): Option<string>
  {
    match p
    case LabExpert =>
      Some(if withHistory then "重点关注指标变化幅度、好转恶化趋势。" else "注：首次报告，无对比数据。")
    case MicrobiologyExpert =>
      Some(if withHistory then "重点关注耐药性变化和治疗效果。" else "注：首次检验，重点关注药敏结果。")
    case _ => None
  }

  function Note(p: Persona, withHistory: bool): string
  {
    match NoteText(p, withHistory)
    case Some(t) => "\n" + t + "\n"
    case None => ""
  }

  /** The last line of every prompt, with the template's trailing indentation. */
  const Closing: string := "\n请用中文专业但通俗地回答。\n            "

  /** The expert and the analysis context the prompt opens with. */
  function Opening(p: Persona, history: Option<map<string, Value>>): string
  {
    "\n" + Role(p) + AnalysisContext(history)
  }

  function Heading(p: Persona): string
  {
    "以下" + Subject(p) + "报告："
  }

  /** The analysis points and the note, between the data and the closing line. */
  function Instructions(p: Persona, withHistory: bool): string
  {
    "\n\n分析要点：\n" + Points(p, withHistory) + Note(p, withHistory)
  }

  /** The prompt `analyze_with_llm` sends for a report. */
  function Prompt(reportType: string, data: map<string, Value>, history: Option<map<string, Value>>,
                  dump: map<string, Value> -> string): string
  {
    var p := PersonaFor(reportType);
    Opening(p, history) + Heading(p) + "\n\n" + DataSection(data, history, dump)
      + Instructions(p, HasHistory(history)) + Closing
  }

  /** Where each piece of a prompt-shaped string sits. */
  lemma PromptShape(a: string, b: string, c: string, d1: string, d2: string, e: string, f: string)
    ensures var s := a + b + c + (d1 + d2) + e + f;
      a <= s && Contains(s, b) && Contains(s, d1) && Contains(s, d2) && Contains(s, e) &&
      |f| <= |s| && s[|s| - |f|..] == f
  {
    var s := a + b + c + (d1 + d2) + e + f;
    assert s == a + b + (c + d1 + d2 + e + f);
    assert s[..|a|] == a;
    ContainsMiddle(a, b, c + d1 + d2 + e + f);
    assert s == (a + b + c) + d1 + (d2 + e + f);
    ContainsMiddle(a + b + c, d1, d2 + e + f);
    assert s == (a + b + c + d1) + d2 + (e + f);
    ContainsMiddle(a + b + c + d1, d2, e + f);
    assert s == (a + b + c + d1 + d2) + e + f;
    ContainsMiddle(a + b + c + d1 + d2, e, f);
    assert s[|s| - |f|..] == f;
  }

  /** The prompt opens with the expert and the analysis context, names the
      report kind, and ends with the closing line. */
  lemma PromptFrame(reportType: string, data: map<string, Value>, history: Option<map<string, Value>>,
                    dump: map<string, Value> -> string)
    ensures var prompt := Prompt(reportType, data, history, dump);
      var p := PersonaFor(reportType);
      Opening(p, history) <= prompt &&
      Contains(prompt, Heading(p)) &&
      |Closing| <= |prompt| && prompt[|prompt| - |Closing|..] == Closing
  {
    var p := PersonaFor(reportType);
    PromptShape(Opening(p, history), Heading(p), "\n\n", CurrentPart(data, dump), HistoryPart(history, dump),
                Instructions(p, HasHistory(history)), Closing);
  }

  /** The current report is always in the prompt; the historical one is in
      it exactly when there is one, and otherwise the data section is the
      current report alone. */
  lemma PromptCarriesReports(reportType: string, data: map<string, Value>, history: Option<map<string, Value>>,
                             dump: map<string, Value> -> string)
    ensures Contains(Prompt(reportType, data, history, dump), CurrentPart(data, dump))
    ensures HasHistory(history) ==>
              Contains(Prompt(reportType, data, history, dump), "历史报告：" + dump(history.value))
    ensures !HasHistory(history) ==> DataSection(data, history, dump) == CurrentPart(data, dump)
  {
    var p := PersonaFor(reportType);
    PromptShape(Opening(p, history), Heading(p), "\n\n", CurrentPart(data, dump), HistoryPart(history, dump),
                Instructions(p, HasHistory(history)), Closing);
  }

  /** The note, when the expert has one, sits in the instructions. */
  lemma NoteInInstructions(p: Persona, w: bool)
    requires NoteText(p, w).Some?
    ensures Contains(Instructions(p, w), NoteText(p, w).value)
  {
    var t := NoteText(p, w).value;
    assert Note(p, w) == "\n" + t + "\n";
    ContainsInLast("\n\n分析要点：\n" + Points(p, w), "\n", t, "\n");
  }

  /** Lab and microbiology prompts carry the note for their case: trends
      when there is a history, a first-report remark when there is none. */
  lemma PromptNote(reportType: string, data: map<string, Value>, history: Option<map<string, Value>>,
                   dump: map<string, Value> -> string)
    requires reportType == "routineLab" || reportType == "microbiology"
    ensures var lab := reportType == "routineLab";
      Contains(Prompt(reportType, data, history, dump),
               if HasHistory(history) then
                 (if lab then "重点关注指标变化幅度、好转恶化趋势。" else "重点关注耐药性变化和治疗效果。")
               else
                 (if lab then "注：首次报告，无对比数据。" else "注：首次检验，重点关注药敏结果。"))
  {
    var p := PersonaFor(reportType);
    var w := HasHistory(history);
    NoteInInstructions(p, w);
    PromptShape(Opening(p, history), Heading(p), "\n\n", CurrentPart(data, dump), HistoryPart(history, dump),
                Instructions(p, w), Closing);
    ContainsTransitive(Prompt(reportType, data, history, dump), Instructions(p, w), NoteText(p, w).value);
  }

  /** `analyze_with_llm`: the model's reply, or the failure text; `model`
      is the chat model's `ainvoke` on a prompt (`Err` carries `str(e)`).
      The function never raises. */
  function AnalyzeWithLlm(reportType: string, data: map<string, Value>, history: Option<map<string, Value>>,
                          dump: map<string, Value> -> string, model: string -> Result<string, string>): string
  {
    match model(Prompt(reportType, data, history, dump))
    case Ok(reply) => reply
    case Err(e) => "大模型分析失败: " + e
  }

  /** `analyze_with_llm` as the pipeline's `analyze_func`. */
  function LlmResponder(dump: map<string, Value> -> string, model: string -> Result<string, string>)
    : AnalysisRequest -> Result<string, string>
  {
    (req: AnalysisRequest) => Ok(AnalyzeWithLlm(req.analysisType, req.data, req.history, dump, model))
  }

  /** With `analyze_with_llm` as the analyser and room in the cache, steps
      4-6 of the pipeline never fail: a failed model call becomes the
      analysis text, and that text is what gets cached. */
  lemma LlmAnalysisNeverFails(dump: map<string, Value> -> string, model: string -> Result<string, string>,
                              req: AnalysisRequest, hit: Option<string>,
                              afterGet: map<CacheKey, Entry>, maxSize: int)
    requires maxSize > 0
    ensures var o := AnalysisOutcome(hit, LlmResponder(dump, model)(req), afterGet, maxSize);
      o.Ok? &&
      (UsableHit(hit) ==> o.value == hit.value) &&
      (!UsableHit(hit) ==> o.value == AnalyzeWithLlm(req.analysisType, req.data, req.history, dump, model))
    ensures var reply := model(Prompt(req.analysisType, req.data, req.history, dump));
      !UsableHit(hit) && reply.Err? ==>
        AnalysisOutcome(hit, LlmResponder(dump, model)(req), afterGet, maxSize) == Ok("大模型分析失败: " + reply.error)
  {
    assert afterGet == map[] ==> |afterGet| < maxSize;
  }

  // ---------------------------------------------------------------------
  // Envelopes (api.py:432-439, error_handlers.py:63-121)
  // ---------------------------------------------------------------------

  /** `create_legacy_error_response`; `nowIso` is `utcnow().isoformat()`. */
  function LegacyErrorResponse(cardNo: string, message: string, nowIso: string): (r: map<string, Value>)
    ensures r.Keys == {"code", "cardNo", "error", "processed_at"}
    ensures r["code"] == Str("500") && r["cardNo"] == Str(cardNo) && r["error"] == Str(message)
  {
    map["code" := Str("500"), "cardNo" := Str(cardNo), "error" := Str(message), "processed_at" := Str(nowIso)]
  }

  /** The dict `UnifiedErrorHandler.create_error_response` returns: `details`
      only when the envelope has them. */
  function EnvelopeDict(e: ErrorHandlers.Envelope): map<string, Value>
  {
    var base := map["code" := Str(e.code), "cardNo" := Str(e.cardNo), "error" := Str(e.error),
                    "message" := Str(e.message), "processed_at" := Str(e.processedAt)];
    match e.details
    case None => base
    case Some(d) => base["details" := Object(map k | k in d :: Str(d[k]))]
  }

  /** The error handler an endpoint hands to `process_report`: the legacy
      envelope, or the factory's `processing_error` with a context. */
  datatype HandlerKind = LegacyHandler | ProcessingHandler(context: string)

  function ErrorHandlerFor(kind: HandlerKind, nowIso: string): (string, string) -> map<string, Value>
  {
    match kind
    case LegacyHandler => (c: string, m: string) => LegacyErrorResponse(c, m, nowIso)
    case ProcessingHandler(ctx) =>
      (c: string, m: string) => EnvelopeDict(ErrorHandlers.ProcessingErrorResponse(c, m, Some(ctx), nowIso))
  }

  // ---------------------------------------------------------------------
  // The four report endpoints (api.py:597-789)
  // ---------------------------------------------------------------------

  /** The local wall clock `datetime.now()`. */
  datatype Clock = Clock(year: nat, month: nat, day: nat, hour: nat, minute: nat, second: nat)

  predicate ValidClock(c: Clock)
  {
    1 <= c.year <= 9999 && 1 <= c.month <= 12 && 1 <= c.day <= 31 &&
    c.hour < 24 && c.minute < 60 && c.second < 60
  }

  /** `strftime("%Y%m%d%H%M%S")`. */
  function Timestamp(c: Clock): string
  {
    Pad(c.year, 4) + Pad(c.month, 2) + Pad(c.day, 2) + Pad(c.hour, 2) + Pad(c.minute, 2) + Pad(c.second, 2)
  }

  /** Six digit fields of widths 4, 2, 2, 2, 2, 2 laid end to end. */
  lemma SixFields(y: string, mo: string, d: string, h: string, mi: string, se: string)
    requires |y| == 4 && |mo| == 2 && |d| == 2 && |h| == 2 && |mi| == 2 && |se| == 2
    requires AllDigits(y) && AllDigits(mo) && AllDigits(d) && AllDigits(h) && AllDigits(mi) && AllDigits(se)
    ensures var s := y + mo + d + h + mi + se;
      |s| == 14 && AllDigits(s) && s[0..4] == y && s[4..6] == mo && s[6..8] == d
      && s[8..10] == h && s[10..12] == mi && s[12..14] == se
  {
    var s := y + mo + d + h + mi + se;
    assert s[0..4] == y;
    assert s[4..6] == mo;
    assert s[6..8] == d;
    assert s[8..10] == h;
    assert s[10..12] == mi;
    assert s[12..14] == se;
  }

  /** Each clock field reads back from its columns of a fourteen-digit stamp. */
  predicate ReadsBack(s: string, c: Clock)
    requires |s| == 14 && AllDigits(s)
  {
    DigitsValue(s[0..4]) == c.year && DigitsValue(s[4..6]) == c.month &&
    DigitsValue(s[6..8]) == c.day && DigitsValue(s[8..10]) == c.hour &&
    DigitsValue(s[10..12]) == c.minute && DigitsValue(s[12..14]) == c.second
  }

  /** The stamp is fourteen digits, and each field reads back from its
      columns. */
  lemma TimestampFields(c: Clock)
    requires ValidClock(c)
    ensures |Timestamp(c)| == 14 && AllDigits(Timestamp(c)) && ReadsBack(Timestamp(c), c)
  {
    SixFields(Pad(c.year, 4), Pad(c.month, 2), Pad(c.day, 2), Pad(c.hour, 2), Pad(c.minute, 2), Pad(c.second, 2));
    assert Pow10(2) == 100 && Pow10(4) == 10000;
    PadValue(c.year, 4);
    PadValue(c.month, 2);
    PadValue(c.day, 2);
    PadValue(c.hour, 2);
    PadValue(c.minute, 2);
    PadValue(c.second, 2);
  }

  /** `request.reportDate or datetime.now().strftime(...)`. */
  function ReportDateOr(given: string, c: Clock): string
  {
    if given != "" then given else Timestamp(c)
  }

  /** The date used is never empty, and it is the given one exactly when
      one was given. */
  lemma ReportDateDefaulting(given: string, c: Clock)
    ensures ReportDateOr(given, c) != ""
    ensures ReportDateOr(given, c) == given <==> given != ""
    ensures given == "" ==> |ReportDateOr(given, c)| == 14 && AllDigits(ReportDateOr(given, c))
  {
    assert |Timestamp(c)| == 14;
  }

  /** `RoutineLabReportRequest`; every field of the request models is a
      required string, so `x or ""` is `x`. */
  datatype LabRequest = LabRequest(cardNo: string, reportDate: string, resultList: string)

  datatype MicrobiologyRequest = MicrobiologyRequest(
    cardNo: string, reportDate: string,
    microbeResultList: string, bacterialResultList: string, drugSensitivityList: string,
    deptCode: string, deptName: string, diagnosisCode: string, diagnosisName: string,
    diagnosisDate: string, testResultCode: string, testResultName: string,
    testQuantifyResult: string, testQuantifyResultUnit: string)

  datatype ExaminationRequest = ExaminationRequest(
    cardNo: string, patientNo: string, reportDate: string,
    examResultCode: string, examResultName: string, examQuantifyResult: string,
    examQuantifyResultUnit: string, examObservation: string, examResult: string)

  /** `PathologyReportRequest` with the `reportDate` field the endpoint
      reads; the declared schema lacks it (see `PathologySchemaFields`). */
  datatype PathologyRequest = PathologyRequest(
    cardNo: string, patientNo: string, reportDate: string, deptCode: string, deptName: string,
    diagnosisCode: string, diagnosisName: string, chiefComplaint: string,
    symptomDescribe: string, symptomStartTime: string, symptomEndTime: string,
    examResultCode: string, examResultName: string, examQuantifyResult: string,
    examQuantifyResultUnit: string, diagnosisDescribe: string,
    examObservation: string, examResult: string)

  /** What every endpoint guarantees of the `ReportData` it builds: the
      card number and the (defaulted) date, the type, and every field
      validation asks for. */
  predicate WellFormed(rd: ReportData, cardNo: string, date: string, t: ReportType)
  {
    rd.cardNo == cardNo && rd.reportDate == date && rd.reportType == t &&
    "cardNo" in rd.data && rd.data["cardNo"] == Str(cardNo) &&
    "reportDate" in rd.data && rd.data["reportDate"] == Str(date) &&
    FirstMissing(ConfigFor(t).requiredFields, rd.data).None?
  }

  function RoutineLabReport(req: LabRequest, c: Clock): (rd: ReportData)
    ensures WellFormed(rd, req.cardNo, ReportDateOr(req.reportDate, c), RoutineLab)
    ensures "resultList" in rd.data && rd.data["resultList"] == Str(req.resultList)
    ensures rd.patientNo.None? && rd.deptCode.None? && rd.diagnosisName.None?
  {
    var date := ReportDateOr(req.reportDate, c);
    ReportData(req.cardNo, date, RoutineLab,
               map["cardNo" := Str(req.cardNo), "reportDate" := Str(date), "resultList" := Str(req.resultList)],
               None, None, None, None, None)
  }

  function MicrobiologyReport(req: MicrobiologyRequest, c: Clock): (rd: ReportData)
    ensures WellFormed(rd, req.cardNo, ReportDateOr(req.reportDate, c), Microbiology)
    ensures "drugSensitivityList" in rd.data && rd.data["drugSensitivityList"] == Str(req.drugSensitivityList)
    ensures rd.patientNo.None? && rd.deptCode == Some(req.deptCode) && rd.diagnosisName == Some(req.diagnosisName)
  {
    var date := ReportDateOr(req.reportDate, c);
    ReportData(req.cardNo, date, Microbiology,
               map["cardNo" := Str(req.cardNo), "reportDate" := Str(date),
                   "microbeResultList" := Str(req.microbeResultList),
                   "bacterialResultList" := Str(req.bacterialResultList),
                   "drugSensitivityList" := Str(req.drugSensitivityList),
                   "diagnosisDate" := Str(req.diagnosisDate),
                   "testResultCode" := Str(req.testResultCode),
                   "testResultName" := Str(req.testResultName),
                   "testQuantifyResult" := Str(req.testQuantifyResult),
                   "testQuantifyResultUnit" := Str(req.testQuantifyResultUnit)],
               None, Some(req.deptCode), Some(req.deptName), Some(req.diagnosisCode), Some(req.diagnosisName))
  }

  function ExaminationReport(req: ExaminationRequest, c: Clock): (rd: ReportData)
    ensures WellFormed(rd, req.cardNo, ReportDateOr(req.reportDate, c), Examination)
    ensures "examObservation" in rd.data && "examResult" in rd.data &&
            rd.data["examObservation"] == Str(req.examObservation) && rd.data["examResult"] == Str(req.examResult)
    ensures rd.patientNo == Some(req.patientNo) && rd.deptCode.None? && rd.diagnosisName.None?
  {
    var date := ReportDateOr(req.reportDate, c);
    ReportData(req.cardNo, date, Examination,
               map["cardNo" := Str(req.cardNo), "reportDate" := Str(date),
                   "patientNo" := Str(req.patientNo),
                   "examResultCode" := Str(req.examResultCode),
                   "examResultName" := Str(req.examResultName),
                   "examQuantifyResult" := Str(req.examQuantifyResult),
                   "examQuantifyResultUnit" := Str(req.examQuantifyResultUnit),
                   "examObservation" := Str(req.examObservation),
                   "examResult" := Str(req.examResult)],
               Some(req.patientNo), None, None, None, None)
  }

  function PathologyReport(req: PathologyRequest, c: Clock): (rd: ReportData)
    ensures WellFormed(rd, req.cardNo, ReportDateOr(req.reportDate, c), Pathology)
    ensures "examObservation" in rd.data && "examResult" in rd.data &&
            rd.data["examObservation"] == Str(req.examObservation) && rd.data["examResult"] == Str(req.examResult)
    ensures rd.patientNo == Some(req.patientNo) && rd.deptCode == Some(req.deptCode) &&
            rd.diagnosisName == Some(req.diagnosisName)
  {
    var date := ReportDateOr(req.reportDate, c);
    ReportData(req.cardNo, date, Pathology,
               map["cardNo" := Str(req.cardNo), "reportDate" := Str(date),
                   "chiefComplaint" := Str(req.chiefComplaint),
                   "symptomDescribe" := Str(req.symptomDescribe),
                   "symptomStartTime" := Str(req.symptomStartTime),
                   "symptomEndTime" := Str(req.symptomEndTime),
                   "examResultCode" := Str(req.examResultCode),
                   "examResultName" := Str(req.examResultName),
                   "examQuantifyResult" := Str(req.examQuantifyResult),
                   "examQuantifyResultUnit" := Str(req.examQuantifyResultUnit),
                   "diagnosisDescribe" := Str(req.diagnosisDescribe),
                   "examObservation" := Str(req.examObservation),
                   "examResult" := Str(req.examResult)],
               Some(req.patientNo), Some(req.deptCode), Some(req.deptName),
               Some(req.diagnosisCode), Some(req.diagnosisName))
  }

  /** The fields `PathologyReportRequest` declares: every field of
      `PathologyRequest` but `reportDate`. */
  const PathologySchemaFields: set<string> := {
    "cardNo", "patientNo", "deptCode", "deptName", "diagnosisCode", "diagnosisName",
    "chiefComplaint", "symptomDescribe", "symptomStartTime", "symptomEndTime",
    "examResultCode", "examResultName", "examQuantifyResult", "examQuantifyResultUnit",
    "diagnosisDescribe", "examObservation", "examResult"}

  /** The pathology mapping as written: `request.reportDate` on a model
      that does not declare the field raises `AttributeError` (None). */
  function PathologyReportAsWritten(req: PathologyRequest, c: Clock): Option<ReportData>
  {
    if "reportDate" in PathologySchemaFields then Some(PathologyReport(req, c)) else None
  }

  /** As written, no pathology request gets past the date defaulting. */
  lemma PathologyRequestAlwaysRaises(req: PathologyRequest, c: Clock)
    ensures PathologyReportAsWritten(req, c).None?
  {
    assert "reportDate"[0] == 'r';
    assert forall f :: f in PathologySchemaFields ==> |f| == 0 || f[0] != 'r' || f != "reportDate";
  }

  /** The four report responses share one shape. */
  datatype ReportResponse = ReportResponse(code: Value, cardNo: Value, processedAt: Value, aiAnalysis: Value)

  /** `XReportResponse(code=result["code"], ..., ai_analysis=result.get("ai_analysis",
      result.get("error", "")))`; a missing key raises `KeyError` (None). */
  function ResponseOf(result: map<string, Value>): Option<ReportResponse>
  {
    if "code" in result && "cardNo" in result && "processed_at" in result then
      Some(ReportResponse(result["code"], result["cardNo"], result["processed_at"],
                          GetOr(result, "ai_analysis", GetOr(result, "error", Str("")))))
    else None
  }

  /** A success envelope answers code 200 with the analysis; either error
      handler answers code 500 with the failure message as `ai_analysis`. */
  lemma ResponseOfEnvelopes(cardNo: string, now: int, ai: string, kind: HandlerKind, nowIso: string, message: string)
    ensures ResponseOf(SuccessEnvelope(cardNo, now, ai)) == Some(ReportResponse(Str("200"), Str(cardNo), Int(now), Str(ai)))
    ensures ResponseOf(ErrorHandlerFor(kind, nowIso)(cardNo, message))
            == Some(ReportResponse(Str("500"), Str(cardNo), Str(nowIso), Str(message)))
  {
    var m := SuccessEnvelope(cardNo, now, ai);
    assert "code" in m && "cardNo" in m && "processed_at" in m && "ai_analysis" in m;
    if kind.ProcessingHandler? {
      var e := ErrorHandlers.ProcessingErrorResponse(cardNo, message, Some(kind.context), nowIso);
      var d := EnvelopeDict(e);
      assert d == map["code" := Str(e.code), "cardNo" := Str(e.cardNo), "error" := Str(e.error),
                      "message" := Str(e.message), "processed_at" := Str(e.processedAt)];
      assert "ai_analysis" !in d;
    }
  }

  /** The analysis a report gets: a usable cached text, else what
      `analyze_with_llm` answers for the request the pipeline builds. */
  function AnalysisFor(cache: map<CacheKey, Entry>, ttl: int, patients: seq<PatientInfo>, rd: ReportData,
                       dump: map<string, Value> -> string, model: string -> Result<string, string>,
                       now: int): string
    requires Indexable(rd)
  {
    var req := RequestFor(patients, rd);
    var hit := Lookup(cache, KeyFor(req), now, ttl);
    if UsableHit(hit) then hit.value else AnalyzeWithLlm(req.analysisType, req.data, req.history, dump, model)
  }

  /** One report endpoint: run the pipeline with `analyze_with_llm` and the
      endpoint's error handler, and read the response off the envelope.
      The request always passes validation, so the response is code 200
      with the analysis unless the commit fails, and code 500 with the
      commit's failure message otherwise. */
  method CreateReport(service: ReportProcessingService, rd: ReportData, kind: HandlerKind, db: Session,
                      dump: map<string, Value> -> string, model: string -> Result<string, string>,
                      now: int, nowIso: string)
    returns (resp: ReportResponse)
    requires service.llmCache.Valid() && service.llmCache.maxSize > 0 && db.staged == []
    requires FirstMissing(ConfigFor(rd.reportType).requiredFields, rd.data).None?
    modifies service.llmCache, db
    ensures service.llmCache.Valid() && db.staged == []
    ensures db.patients == old(db.patients) && db.comparisons == old(db.comparisons)
    ensures resp.cardNo == Str(rd.cardNo)
    ensures resp.code == Str("200") <==> db.commitError.None?
    ensures Indexable(rd) &&
      var analysis := AnalysisFor(old(service.llmCache.cache), service.llmCache.ttl, old(db.patients), rd,
                                  dump, model, now);
      (db.commitError.None? ==>
         resp.aiAnalysis == Str(analysis) &&
         db.reports == old(db.reports) + [StoredReport(rd, analysis, now).(id := old(db.nextId))]) &&
      (db.commitError.Some? ==>
         resp.aiAnalysis == Str(FailureMessage(db.commitError.value)) && db.reports == old(db.reports))
    // on a miss the analysis is cached, even when the commit then fails
    ensures Indexable(rd) &&
      var req := RequestFor(old(db.patients), rd);
      var hit := Lookup(old(service.llmCache.cache), KeyFor(req), now, service.llmCache.ttl);
      var afterGet := AfterGet(old(service.llmCache.cache), KeyFor(req), now, service.llmCache.ttl);
      (!UsableHit(hit) ==>
         Stored(afterGet, service.llmCache.cache, KeyFor(req),
                Entry(AnalyzeWithLlm(req.analysisType, req.data, req.history, dump, model), now),
                service.llmCache.maxSize)) &&
      (UsableHit(hit) ==> service.llmCache.cache == afterGet)
  {
    var analyzer := new Analyzer(LlmResponder(dump, model));
    var result := service.ProcessReport(rd, db, analyzer, ErrorHandlerFor(kind, nowIso), now);
    ValidatedIsIndexable(rd);
    ghost var req := RequestFor(old(db.patients), rd);
    ghost var hit := Lookup(old(service.llmCache.cache), KeyFor(req), now, service.llmCache.ttl);
    ghost var afterGet := AfterGet(old(service.llmCache.cache), KeyFor(req), now, service.llmCache.ttl);
    LlmAnalysisNeverFails(dump, model, req, hit, afterGet, service.llmCache.maxSize);
    var analysis := if db.commitError.None? then result["ai_analysis"].s else "";
    ResponseOfEnvelopes(rd.cardNo, now, analysis, kind, nowIso,
                        if db.commitError.Some? then FailureMessage(db.commitError.value) else "");
    var r := ResponseOf(result);
    resp := r.value;
  }

  /** `POST /routine-lab`: failures go through `processing_error`. */
  method CreateRoutineLabReport(service: ReportProcessingService, req: LabRequest, c: Clock, db: Session,
                                dump: map<string, Value> -> string, model: string -> Result<string, string>,
                                now: int, nowIso: string)
    returns (resp: ReportResponse)
    requires service.llmCache.Valid() && service.llmCache.maxSize > 0 && db.staged == []
    modifies service.llmCache, db
    ensures resp.cardNo == Str(req.cardNo)
    ensures resp.code == Str("200") <==> db.commitError.None?
    ensures db.commitError.Some? ==> resp.aiAnalysis == Str(FailureMessage(db.commitError.value))
    ensures db.commitError.None? ==>
      |db.reports| == |old(db.reports)| + 1 &&
      db.reports[|db.reports| - 1].reportDate == ReportDateOr(req.reportDate, c)
    ensures Indexable(RoutineLabReport(req, c)) &&
      var analysis := AnalysisFor(old(service.llmCache.cache), service.llmCache.ttl, old(db.patients),
                                  RoutineLabReport(req, c), dump, model, now);
      db.commitError.None? ==>
        resp.aiAnalysis == Str(analysis) &&
        db.reports == old(db.reports) + [StoredReport(RoutineLabReport(req, c), analysis, now).(id := old(db.nextId))]
  {
    var rd := RoutineLabReport(req, c);
    resp := CreateReport(service, rd, ProcessingHandler("常规检验报告处理"), db, dump, model, now, nowIso);
  }

  /** `POST /microbiology`: failures go through the legacy envelope. */
  method CreateMicrobiologyReport(service: ReportProcessingService, req: MicrobiologyRequest, c: Clock,
                                  db: Session, dump: map<string, Value> -> string,
                                  model: string -> Result<string, string>, now: int, nowIso: string)
    returns (resp: ReportResponse)
    requires service.llmCache.Valid() && service.llmCache.maxSize > 0 && db.staged == []
    modifies service.llmCache, db
    ensures resp.cardNo == Str(req.cardNo)
    ensures resp.code == Str("200") <==> db.commitError.None?
    ensures db.commitError.Some? ==> resp.aiAnalysis == Str(FailureMessage(db.commitError.value))
    ensures db.commitError.None? ==>
      |db.reports| == |old(db.reports)| + 1 &&
      db.reports[|db.reports| - 1].reportDate == ReportDateOr(req.reportDate, c)
    ensures Indexable(MicrobiologyReport(req, c)) &&
      var analysis := AnalysisFor(old(service.llmCache.cache), service.llmCache.ttl, old(db.patients),
                                  MicrobiologyReport(req, c), dump, model, now);
      db.commitError.None? ==>
        resp.aiAnalysis == Str(analysis) &&
        db.reports == old(db.reports) + [StoredReport(MicrobiologyReport(req, c), analysis, now).(id := old(db.nextId))]
  {
    var rd := MicrobiologyReport(req, c);
    resp := CreateReport(service, rd, LegacyHandler, db, dump, model, now, nowIso);
  }

  /** `POST /examination`. */
  method CreateExaminationReport(service: ReportProcessingService, req: ExaminationRequest, c: Clock,
                                 db: Session, dump: map<string, Value> -> string,
                                 model: string -> Result<string, string>, now: int, nowIso: string)
    returns (resp: ReportResponse)
    requires service.llmCache.Valid() && service.llmCache.maxSize > 0 && db.staged == []
    modifies service.llmCache, db
    ensures resp.cardNo == Str(req.cardNo)
    ensures resp.code == Str("200") <==> db.commitError.None?
    ensures db.commitError.Some? ==> resp.aiAnalysis == Str(FailureMessage(db.commitError.value))
    ensures db.commitError.None? ==>
      |db.reports| == |old(db.reports)| + 1 &&
      db.reports[|db.reports| - 1].reportDate == ReportDateOr(req.reportDate, c)
    ensures Indexable(ExaminationReport(req, c)) &&
      var analysis := AnalysisFor(old(service.llmCache.cache), service.llmCache.ttl, old(db.patients),
                                  ExaminationReport(req, c), dump, model, now);
      db.commitError.None? ==>
        resp.aiAnalysis == Str(analysis) &&
        db.reports == old(db.reports) + [StoredReport(ExaminationReport(req, c), analysis, now).(id := old(db.nextId))]
  {
    var rd := ExaminationReport(req, c);
    resp := CreateReport(service, rd, LegacyHandler, db, dump, model, now, nowIso);
  }

  /** `POST /pathology`. */
  method CreatePathologyReport(service: ReportProcessingService, req: PathologyRequest, c: Clock,
                               db: Session, dump: map<string, Value> -> string,
                               model: string -> Result<string, string>, now: int, nowIso: string)
    returns (resp: ReportResponse)
    requires service.llmCache.Valid() && service.llmCache.maxSize > 0 && db.staged == []
    modifies service.llmCache, db
    ensures resp.cardNo == Str(req.cardNo)
    ensures resp.code == Str("200") <==> db.commitError.None?
    ensures db.commitError.Some? ==> resp.aiAnalysis == Str(FailureMessage(db.commitError.value))
    ensures db.commitError.None? ==>
      |db.reports| == |old(db.reports)| + 1 &&
      db.reports[|db.reports| - 1].reportDate == ReportDateOr(req.reportDate, c)
    ensures Indexable(PathologyReport(req, c)) &&
      var analysis := AnalysisFor(old(service.llmCache.cache), service.llmCache.ttl, old(db.patients),
                                  PathologyReport(req, c), dump, model, now);
      db.commitError.None? ==>
        resp.aiAnalysis == Str(analysis) &&
        db.reports == old(db.reports) + [StoredReport(PathologyReport(req, c), analysis, now).(id := old(db.nextId))]
  {
    var rd := PathologyReport(req, c);
    resp := CreateReport(service, rd, LegacyHandler, db, dump, model, now, nowIso);
  }

  // ---------------------------------------------------------------------
  // POST /compare-reports (api.py:441-562)
  // ---------------------------------------------------------------------

  /** `ReportComparisonRequest` (the AI flag is never read). */
  datatype ComparisonRequest = ComparisonRequest(
    cardNo: string, reportType: string, currentReportId: int, comparisonPeriod: string)

  /** The analyser behind `compare_reports`: its renderers (`str()` and
      `json.dumps`), the chain call, and the model settings. */
  datatype ChainSetup = ChainSetup(
    show: Value -> string,
    dump: map<string, Value> -> string,
    invoke: LangchainService.ChainInputs -> Result<string, Exceptions.Raised>,
    useLocalModel: bool,
    modelName: string,
    callbackTokens: int)

  /** `ReportComparisonResponse`; `keyChanges` is Null when not set. */
  datatype ComparisonResponse = ComparisonResponse(
    code: string,
    cardNo: string,
    error: Option<string>,
    processedAt: string,
    comparisonAnalysis: Option<string>,
    keyChanges: Value,
    trendAnalysis: Option<string>,
    riskAssessment: Option<string>,
    recommendations: Option<string>,
    historicalReportsCount: int,
    analysisModel: Option<string>,
    analysisConfidence: Option<string>)

  function Strings(items: seq<string>): Value
  {
    List(seq(|items|, i requires 0 <= i < |items| => Str(items[i])))
  }

  /** The `key_changes` dict; the fallback's `{}` is None. */
  function KeyChangesValue(k: Option<LangchainService.KeyChanges>): Value
  {
    match k
    case None => Object(map[])
    case Some(c) => Object(map["significant_changes" := Strings(c.significantChanges),
                               "trends" := Strings(c.trends),
                               "abnormal_values" := Strings(c.abnormalValues),
                               "recommendations" := Strings(c.recommendations)])
  }

  /** The dict `compare_reports` returns. */
  function ResultDict(r: LangchainService.ComparisonResult): map<string, Value>
  {
    map["langchain_analysis" := Str(r.langchainAnalysis),
        "key_changes" := KeyChangesValue(r.keyChanges),
        "trend_analysis" := Str(r.trendAnalysis),
        "risk_assessment" := Str(r.riskAssessment),
        "recommendations" := Str(r.recommendations),
        "analysis_model" := Str(r.analysisModel),
        "analysis_confidence" := Str(r.analysisConfidence),
        "tokens_used" := Int(r.tokensUsed)]
  }

  /** What `medical_analyzer.compare_reports` yields for the request. */
  function ChainOutcome(req: ComparisonRequest, current: map<string, Value>,
                        historical: seq<map<string, Value>>, chain: ChainSetup)
    : Result<LangchainService.ComparisonResult, Exceptions.MedicalReportError>
  {
    LangchainService.CompareOutcome(
      req.cardNo,
      LangchainService.ChainReply(req.cardNo, req.reportType, current, historical,
                                  req.comparisonPeriod, chain.show, chain.dump, chain.invoke),
      |historical|, LangchainService.ModelLabel(chain.useLocalModel, chain.modelName),
      if chain.useLocalModel then 0 else chain.callbackTokens)
  }

  /** The legacy envelope read as the response model: `error` is set, the
      rest keeps its defaults. */
  function MissingReportResponse(cardNo: string, nowIso: string): ComparisonResponse
  {
    ComparisonResponse("500", cardNo, Some("未找到指定的当前报告"), nowIso,
                       None, Null, None, None, None, 0, None, None)
  }

  function NoHistoryResponse(cardNo: string, nowIso: string): ComparisonResponse
  {
    ComparisonResponse("200", cardNo, None, nowIso, Some("暂无历史报告数据可供对比分析"), Null,
                       Some("无历史数据"), Some("无法评估"), Some("建议积累更多历史数据"), 0, None, None)
  }

  function AnalysedResponse(cardNo: string, r: LangchainService.ComparisonResult, count: int, nowIso: string)
    : ComparisonResponse
  {
    ComparisonResponse("200", cardNo, None, nowIso, Some(r.langchainAnalysis), KeyChangesValue(r.keyChanges),
                       Some(r.trendAnalysis), Some(r.riskAssessment), Some(r.recommendations), count,
                       Some(r.analysisModel), Some(r.analysisConfidence))
  }

  /** The `except MedicalReportError` branch: `ErrorHandler.create_error_response`
      mapped onto the response model. */
  function FailedResponse(cardNo: string, e: Exceptions.MedicalReportError, nowIso: string): ComparisonResponse
  {
    var d := Exceptions.CreateErrorResponse(cardNo, Exceptions.Medical(e), Exceptions.DefaultFailureMessage, nowIso);
    ComparisonResponse(d.code, d.cardNo, None, d.processedAt, Some(d.error), Null,
                       Some("分析失败"), Some("无法评估"), Some(d.message), 0, None, None)
  }

  /** The endpoint's response over the stored reports. */
  function ComparisonAnswer(reports: seq<MedicalReport>, req: ComparisonRequest, chain: ChainSetup,
                            now: int, nowIso: string): ComparisonResponse
  {
    var current := DatabaseService.CurrentReportById(reports, req.reportType, req.currentReportId);
    if current.None? then MissingReportResponse(req.cardNo, nowIso)
    else
      var historical := DatabaseService.HistoricalByType(reports, req.cardNo, req.reportType,
                                                         req.comparisonPeriod, now, Some(req.currentReportId));
      if historical == [] then NoHistoryResponse(req.cardNo, nowIso)
      else
        match ChainOutcome(req, current.value, historical, chain)
        case Ok(r) => AnalysedResponse(req.cardNo, r, |historical|, nowIso)
        case Err(e) => FailedResponse(req.cardNo, e, nowIso)
  }

  /** The code is 200 exactly when the current report exists and either
      there is no history or the analysis came back; a count is reported
      exactly when an analysis over a non-empty history came back, and it
      is the number of historical reports; every other answer is code 500
      whose recommendation is the support message or whose error names the
      missing report. */
  lemma ComparisonAnswerCases(reports: seq<MedicalReport>, req: ComparisonRequest, chain: ChainSetup,
                              now: int, nowIso: string)
    ensures var r := ComparisonAnswer(reports, req, chain, now, nowIso);
      var current := DatabaseService.CurrentReportById(reports, req.reportType, req.currentReportId);
      var historical := DatabaseService.HistoricalByType(reports, req.cardNo, req.reportType,
                                                         req.comparisonPeriod, now, Some(req.currentReportId));
      r.cardNo == req.cardNo && r.processedAt == nowIso &&
      (r.code == "200" <==>
         current.Some? && (historical == [] || ChainOutcome(req, current.value, historical, chain).Ok?)) &&
      (r.historicalReportsCount != 0 <==>
         current.Some? && historical != [] && ChainOutcome(req, current.value, historical, chain).Ok?) &&
      (r.historicalReportsCount != 0 ==> r.historicalReportsCount == |historical|) &&
      (r.code != "200" ==>
         (r.code == "500" &&
          (r.error == Some("未找到指定的当前报告") || r.recommendations == Some(Exceptions.SupportMessage))))
  {
    var current := DatabaseService.CurrentReportById(reports, req.reportType, req.currentReportId);
    if current.Some? {
      var historical := DatabaseService.HistoricalByType(reports, req.cardNo, req.reportType,
                                                         req.comparisonPeriod, now, Some(req.currentReportId));
      if historical != [] && ChainOutcome(req, current.value, historical, chain).Err? {
        var e := ChainOutcome(req, current.value, historical, chain).error;
        assert ComparisonAnswer(reports, req, chain, now, nowIso) == FailedResponse(req.cardNo, e, nowIso);
      }
    }
  }

  /** A routine lab comparison that finds history never reaches the chain:
      the current report's row dict has no top-level `result_list`, so it
      is rendered by the JSON fallback, which raises on its `created_at`
      `datetime`; the answer is code 200 with the fallback texts. */
  lemma RoutineLabComparisonFallsBack(reports: seq<MedicalReport>, req: ComparisonRequest, chain: ChainSetup,
                                      now: int, nowIso: string)
    requires req.reportType == "routine_lab"
    requires DatabaseService.CurrentReportById(reports, req.reportType, req.currentReportId).Some?
    requires DatabaseService.HistoricalByType(reports, req.cardNo, req.reportType, req.comparisonPeriod,
                                              now, Some(req.currentReportId)) != []
    ensures var r := ComparisonAnswer(reports, req, chain, now, nowIso);
      r.code == "200" && r.comparisonAnalysis.Some? &&
      Contains(r.comparisonAnalysis.value, LangchainService.DatetimeTypeError) &&
      r.trendAnalysis == Some("分析失败") && r.analysisConfidence == Some("无") && r.analysisModel == Some("error")
  {
    var current := DatabaseService.CurrentReportById(reports, req.reportType, req.currentReportId).value;
    var historical := DatabaseService.HistoricalByType(reports, req.cardNo, req.reportType,
                                                       req.comparisonPeriod, now, Some(req.currentReportId));
    var x :| x in reports && x.id == req.currentReportId && x.reportType == req.reportType &&
             current == DatabaseService.HistoryDict(Pathology, x);
    DatabaseService.RowDictNotEncodable(Pathology, x);
    LangchainService.UnencodableCurrentFallsBack(
      req.cardNo, current, historical, req.comparisonPeriod, chain.show, chain.dump, chain.invoke,
      LangchainService.ModelLabel(chain.useLocalModel, chain.modelName),
      if chain.useLocalModel then 0 else chain.callbackTokens);
  }

  /** A chain failure other than a `LangChainError` still answers code 200,
      with an analysis text that names the failure and the fallback's
      trend; a `LangChainError` answers code 500 with its message. */
  lemma ChainFailureAnswers(reports: seq<MedicalReport>, req: ComparisonRequest, chain: ChainSetup,
                            now: int, nowIso: string, e: Exceptions.Raised)
    requires DatabaseService.CurrentReportById(reports, req.reportType, req.currentReportId).Some?
    requires DatabaseService.HistoricalByType(reports, req.cardNo, req.reportType, req.comparisonPeriod,
                                              now, Some(req.currentReportId)) != []
    requires var current := DatabaseService.CurrentReportById(reports, req.reportType, req.currentReportId).value;
      var historical := DatabaseService.HistoricalByType(reports, req.cardNo, req.reportType,
                                                         req.comparisonPeriod, now, Some(req.currentReportId));
      LangchainService.ChainReply(req.cardNo, req.reportType, current, historical,
                                  req.comparisonPeriod, chain.show, chain.dump, chain.invoke) == Err(e)
    ensures var r := ComparisonAnswer(reports, req, chain, now, nowIso);
      (e.Medical? && e.err.kind.LangChain? ==>
         r.code == "500" && r.comparisonAnalysis == Some(e.err.message) && r.trendAnalysis == Some("分析失败")) &&
      (!(e.Medical? && e.err.kind.LangChain?) ==>
         r.code == "200" && r.comparisonAnalysis.Some? && Contains(r.comparisonAnalysis.value, Exceptions.Text(e)) &&
         r.trendAnalysis == Some("分析失败") && r.analysisConfidence == Some("无"))
  {
    var current := DatabaseService.CurrentReportById(reports, req.reportType, req.currentReportId).value;
    var historical := DatabaseService.HistoricalByType(reports, req.cardNo, req.reportType,
                                                       req.comparisonPeriod, now, Some(req.currentReportId));
    var model := LangchainService.ModelLabel(chain.useLocalModel, chain.modelName);
    var tokens := if chain.useLocalModel then 0 else chain.callbackTokens;
    LangchainService.CompareOutcomeErrors(req.cardNo, e, |historical|, model, tokens);
  }

  /** `current_report.get("report_date", ...)` as text; the row dicts always
      carry the date as a string. */
  function ReportDateText(current: map<string, Value>): string
  {
    match Get(current, "report_date")
    case Str(s) => s
    case _ => ""
  }

  /** `current_report.get("patient_no")`. */
  function PatientNoOf(current: map<string, Value>): Option<string>
  {
    match Get(current, "patient_no")
    case Str(s) => Some(s)
    case _ => None
  }

  function Objects(rows: seq<map<string, Value>>): seq<Value>
  {
    seq(|rows|, i requires 0 <= i < |rows| => Object(rows[i]))
  }

  /** The `report_comparison_analysis` row saved for an analysed comparison. */
  function SavedComparison(req: ComparisonRequest, current: map<string, Value>, historical: seq<map<string, Value>>,
                           result: LangchainService.ComparisonResult, now: int): ComparisonAnalysis
  {
    DatabaseService.ComparisonRecord(req.cardNo, PatientNoOf(current), req.reportType, req.currentReportId,
                                     ReportDateText(current), Object(current), Objects(historical),
                                     req.comparisonPeriod, ResultDict(result), now)
  }

  /** The row the endpoint saves, if it gets as far as saving: only an
      analysed comparison over a non-empty history is saved. */
  function SavedRow(reports: seq<MedicalReport>, req: ComparisonRequest, chain: ChainSetup, now: int)
    : Option<ComparisonAnalysis>
  {
    var current := DatabaseService.CurrentReportById(reports, req.reportType, req.currentReportId);
    if current.None? then None
    else
      var historical := DatabaseService.HistoricalByType(reports, req.cardNo, req.reportType,
                                                         req.comparisonPeriod, now, Some(req.currentReportId));
      if historical == [] then None
      else
        match ChainOutcome(req, current.value, historical, chain)
        case Ok(r) => Some(SavedComparison(req, current.value, historical, r, now))
        case Err(_) => None
  }

  /** `save_comparison_analysis` for an analysed comparison: the row is
      kept only when the commit succeeds and its JSON columns encode. */
  method SaveAnalysed(db: Session, req: ComparisonRequest, current: map<string, Value>,
                      historical: seq<map<string, Value>>, result: LangchainService.ComparisonResult, now: int)
    requires db.staged == []
    modifies db
    ensures db.reports == old(db.reports) && db.patients == old(db.patients) && db.staged == []
    ensures db.comparisons == old(db.comparisons) +
      (if db.commitError.None? && DatabaseService.JsonColumnsEncodable(SavedComparison(req, current, historical, result, now))
       then [SavedComparison(req, current, historical, result, now).(id := old(db.nextId))]
       else [])
  {
    var saved := DatabaseService.SaveComparisonAnalysis(
      db, req.cardNo, PatientNoOf(current), req.reportType, req.currentReportId,
      ReportDateText(current), Object(current), Objects(historical), req.comparisonPeriod,
      ResultDict(result), now);
  }

  /** As written no comparison row is ever stored: the current report's
      row dict goes into `current_report_data` with its `created_at`
      `datetime`, which the JSON column cannot encode. */
  lemma SavedRowNeverEncodes(reports: seq<MedicalReport>, req: ComparisonRequest, chain: ChainSetup, now: int)
    requires SavedRow(reports, req, chain, now).Some?
    ensures !DatabaseService.JsonColumnsEncodable(SavedRow(reports, req, chain, now).value)
  {
    var current := DatabaseService.CurrentReportById(reports, req.reportType, req.currentReportId).value;
    var x :| x in reports && x.id == req.currentReportId && x.reportType == req.reportType &&
             current == DatabaseService.HistoryDict(Pathology, x);
    DatabaseService.RowDictNotEncodable(Pathology, x);
  }

  /** `POST /compare-reports`: look up the current report and its history,
      run the comparison, save it (a failed save is only logged) and
      answer. Only an analysed comparison is sent to the store, and the
      store never keeps it: its JSON columns hold `datetime` values. */
  method CompareReportsEndpoint(db: Session, req: ComparisonRequest, chain: ChainSetup, now: int, nowIso: string)
    returns (resp: ComparisonResponse)
    requires db.staged == []
    modifies db
    ensures resp == ComparisonAnswer(old(db.reports), req, chain, now, nowIso)
    ensures db.reports == old(db.reports) && db.patients == old(db.patients) && db.staged == []
    ensures SavedRow(old(db.reports), req, chain, now).None? ==> db.comparisons == old(db.comparisons)
    ensures SavedRow(old(db.reports), req, chain, now).Some? ==>
      db.comparisons == old(db.comparisons) +
        (if db.commitError.None? && DatabaseService.JsonColumnsEncodable(SavedRow(old(db.reports), req, chain, now).value)
         then [SavedRow(old(db.reports), req, chain, now).value.(id := old(db.nextId))]
         else [])
    ensures db.comparisons == old(db.comparisons)
  {
    var current := DatabaseService.CurrentReportById(db.reports, req.reportType, req.currentReportId);
    if current.None? {
      return MissingReportResponse(req.cardNo, nowIso);
    }
    var historical := DatabaseService.GetHistoricalReportsByType(db.reports, req.cardNo, req.reportType,
                                                                 req.comparisonPeriod, now, Some(req.currentReportId));
    if historical == [] {
      return NoHistoryResponse(req.cardNo, nowIso);
    }
    var result := LangchainService.CompareReports(req.cardNo, req.reportType, current.value, historical,
                                                  req.comparisonPeriod, chain.show, chain.dump, chain.invoke,
                                                  chain.useLocalModel, chain.modelName, chain.callbackTokens);
    assert result == ChainOutcome(req, current.value, historical, chain);
    if result.Err? {
      return FailedResponse(req.cardNo, result.error, nowIso);
    }
    SaveAnalysed(db, req, current.value, historical, result.value, now);
    assert SavedRow(old(db.reports), req, chain, now) == Some(SavedComparison(req, current.value, historical, result.value, now));
    SavedRowNeverEncodes(old(db.reports), req, chain, now);
    resp := AnalysedResponse(req.cardNo, result.value, |historical|, nowIso);
  }
}
