/** The database-free demo service: four endpoints that answer from canned
    analysis templates instead of calling a model, and stamp each answer with
    a report id built from the card number and the current time. */
module SimpleApi {
  import opened Common
  import Api

  // ---------------------------------------------------------------- templates

  /** One canned analysis: the text, four suggestions and a risk level. */
  datatype Template = Template(analysis: string, suggestions: seq<string>, riskLevel: string)

  /** The report types that have a template of their own. */
  const TemplateTypes: set<string> := {"routine_lab", "microbiology", "examination", "pathology"}

  /** The fixed text in front of the embedded report content. */
  function Intro(key: string): string
  {
    match key
    case "microbiology" =>
      "微生物检验报告分析：\n\n微生物培养结果显示需要关注感染控制。建议根据药敏结果选择合适的抗生素治疗。\n\n报告内容："
    case "examination" =>
      "检查报告分析：\n\n影像学检查结果需要结合临床症状综合判断。建议与临床医生讨论后续治疗方案。\n\n报告内容："
    case "pathology" =>
      "病理报告分析：\n\n病理学检查是疾病诊断的金标准。建议根据病理结果制定个体化治疗方案。\n\n报告内容："
    case _ =>
      "常规检验报告分析：\n\n根据提供的检验结果，患者的各项指标基本正常。建议定期复查，保持健康的生活方式。\n\n报告内容："
  }

  function Suggestions(key: string): (r: seq<string>)
    ensures |r| == 4
  {
    match key
    case "microbiology" => ["严格按照药敏结果用药", "注意个人卫生", "完成完整的抗生素疗程", "定期复查微生物培养"]
    case "examination" => ["与主治医生讨论检查结果", "如需要可进行进一步检查", "注意观察症状变化", "按医嘱进行随访"]
    case "pathology" => ["与专科医生详细讨论病理结果", "制定个体化治疗方案", "定期随访复查", "保持良好心态，积极治疗"]
    case _ => ["建议定期复查相关指标", "保持健康饮食习惯", "适量运动", "如有异常症状及时就医"]
  }

  function RiskLevel(key: string): string
  {
    match key
    case "microbiology" => "中风险"
    case "examination" => "中风险"
    case "pathology" => "需要专业评估"
    case _ => "低风险"
  }

  /** `simulate_llm_analysis`: the template of `reportType`, or the
      `routine_lab` one for any other type, with the first 200 characters of
      `content` and "..." at the end of its text. */
  function SimulateLlmAnalysis(reportType: string, content: string): (t: Template)
    ensures |t.suggestions| == 4
    ensures exists intro :: t.analysis == intro + Take(content, 200) + "..."
  {
    var key := if reportType in TemplateTypes then reportType else "routine_lab";
    var text := Intro(key) + Take(content, 200) + "...";
    Template(text, Suggestions(key), RiskLevel(key))
  }

  /** Any type without a template of its own is answered with the
      `routine_lab` template. */
  lemma UnknownTypeFallsBack(reportType: string, content: string)
    requires reportType !in TemplateTypes
    ensures SimulateLlmAnalysis(reportType, content) == SimulateLlmAnalysis("routine_lab", content)
    ensures SimulateLlmAnalysis(reportType, content).riskLevel == "低风险"
  {
  }

  /** The risk level of each template. */
  lemma TemplateRiskLevels(content: string)
    ensures SimulateLlmAnalysis("routine_lab", content).riskLevel == "低风险"
    ensures SimulateLlmAnalysis("microbiology", content).riskLevel == "中风险"
    ensures SimulateLlmAnalysis("examination", content).riskLevel == "中风险"
    ensures SimulateLlmAnalysis("pathology", content).riskLevel == "需要专业评估"
  {
  }

  /** The text embeds at most 200 characters of the content, all of it when
      the content is no longer than that, and always ends with "...". */
  lemma AnalysisEmbedsContent(reportType: string, content: string)
    ensures var a := SimulateLlmAnalysis(reportType, content).analysis;
      Contains(a, Take(content, 200) + "...") && |Take(content, 200)| <= 200
      && |a| >= 3 && a[|a| - 3..] == "..."
    ensures |content| <= 200 ==> Contains(SimulateLlmAnalysis(reportType, content).analysis, content)
  {
    var key := if reportType in TemplateTypes then reportType else "routine_lab";
    var intro := Intro(key);
    var taken := Take(content, 200);
    var a := SimulateLlmAnalysis(reportType, content).analysis;
    assert a == intro + (taken + "...");
    ContainsSuffix(intro, taken + "...");
    assert a == intro + taken + "...";
    ContainsMiddle(intro, taken, "...");
    if |content| <= 200 {
      assert taken == content;
    }
  }

  // ---------------------------------------------------------------- requests

  datatype RoutineLabRequest = RoutineLabRequest(cardNo: string, reportDate: string, resultList: string)

  /** Optional fields are `None` when the client sends `null`; they default
      to "" when it omits them. */
  datatype MicrobiologyRequest = MicrobiologyRequest(
    cardNo: string, reportDate: string, microbeResultList: string,
    bacterialResultList: Option<string>, drugSensitivityList: Option<string>,
    deptCode: Option<string>, deptName: Option<string>,
    diagnosisCode: Option<string>, diagnosisName: Option<string>, diagnosisDate: Option<string>,
    testResultCode: Option<string>, testResultName: Option<string>,
    testQuantifyResult: Option<string>, testQuantifyResultUnit: Option<string>)

  datatype ExaminationRequest = ExaminationRequest(
    cardNo: string, reportDate: string, objectiveFindings: string,
    conclusion: Option<string>, suggestion: Option<string>,
    deptCode: Option<string>, deptName: Option<string>)

  datatype PathologyRequest = PathologyRequest(
    cardNo: string, reportDate: string, pathologyDescription: string,
    pathologyDiagnosis: Option<string>, deptCode: Option<string>, deptName: Option<string>)

  /** How an f-string renders an optional string field. */
  function Show(o: Option<string>): string
  {
    match o
    case None => "None"
    case Some(s) => s
  }

  /** The mock content of each request: its report fields separated by
      single spaces. */
  function MicrobiologyContent(req: MicrobiologyRequest): string
  {
    req.microbeResultList + " " + Show(req.bacterialResultList) + " " + Show(req.drugSensitivityList)
  }

  function ExaminationContent(req: ExaminationRequest): string
  {
    req.objectiveFindings + " " + Show(req.conclusion) + " " + Show(req.suggestion)
  }

  function PathologyContent(req: PathologyRequest): string
  {
    req.pathologyDescription + " " + Show(req.pathologyDiagnosis)
  }

  lemma JoinThree(a: string, b: string, c: string, sep: string)
    ensures Join([a, b, c], sep) == a + sep + b + sep + c
  {
    assert [a, b, c][1..] == [b, c];
    JoinTwo(b, c, sep);
  }

  lemma JoinTwo(a: string, b: string, sep: string)
    ensures Join([a, b], sep) == a + sep + b
  {
    assert [a, b][1..] == [b];
  }

  /** When the fields hold no space, splitting the content on spaces gives
      them back. */
  lemma ContentsSplitBack(m: MicrobiologyRequest, e: ExaminationRequest, p: PathologyRequest)
    requires !Contains(m.microbeResultList, " ") && !Contains(Show(m.bacterialResultList), " ")
      && !Contains(Show(m.drugSensitivityList), " ")
    requires !Contains(e.objectiveFindings, " ") && !Contains(Show(e.conclusion), " ")
      && !Contains(Show(e.suggestion), " ")
    requires !Contains(p.pathologyDescription, " ") && !Contains(Show(p.pathologyDiagnosis), " ")
    ensures Split(MicrobiologyContent(m), " ")
      == [m.microbeResultList, Show(m.bacterialResultList), Show(m.drugSensitivityList)]
    ensures Split(ExaminationContent(e), " ")
      == [e.objectiveFindings, Show(e.conclusion), Show(e.suggestion)]
    ensures Split(PathologyContent(p), " ") == [p.pathologyDescription, Show(p.pathologyDiagnosis)]
  {
    assert " " == [' '];
    JoinThree(m.microbeResultList, Show(m.bacterialResultList), Show(m.drugSensitivityList), " ");
    SplitCharJoin([m.microbeResultList, Show(m.bacterialResultList), Show(m.drugSensitivityList)], ' ');
    JoinThree(e.objectiveFindings, Show(e.conclusion), Show(e.suggestion), " ");
    SplitCharJoin([e.objectiveFindings, Show(e.conclusion), Show(e.suggestion)], ' ');
    JoinTwo(p.pathologyDescription, Show(p.pathologyDiagnosis), " ");
    SplitCharJoin([p.pathologyDescription, Show(p.pathologyDiagnosis)], ' ');
  }

  // ---------------------------------------------------------------- responses

  /** `datetime.now().strftime('%Y%m%d_%H%M%S')`. */
  function Stamp(c: Api.Clock): string
  {
    var t := Api.Timestamp(c);
    t[..8] + "_" + t[8..]
  }

  /** The report id `PREFIX_cardNo_date_time`. */
  function ReportId(prefix: string, cardNo: string, c: Api.Clock): string
  {
    prefix + "_" + cardNo + "_" + Stamp(c)
  }

  /** A string none of whose characters is `ch` does not contain `ch`. */
  lemma NotContainsChar(s: string, ch: char)
    requires forall i :: 0 <= i < |s| ==> s[i] != ch
    ensures !Contains(s, [ch])
  {
    forall i: nat | i <= |s|
      ensures !OccursAt(s, [ch], i)
    {
      if i + 1 <= |s| {
        assert s[i..i + 1] == [s[i]];
      }
    }
  }

  /** The date and time halves of the stamp are digits, so hold no "_". */
  lemma StampHalves(c: Api.Clock)
    requires Api.ValidClock(c)
    ensures var t := Api.Timestamp(c);
      |t[..8]| == 8 && |t[8..]| == 6 && AllDigits(t[..8]) && AllDigits(t[8..])
      && !Contains(t[..8], "_") && !Contains(t[8..], "_")
  {
    Api.TimestampFields(c);
    var t := Api.Timestamp(c);
    assert AllDigits(t[..8]) && AllDigits(t[8..]);
    assert "_" == ['_'];
    NotContainsChar(t[..8], '_');
    NotContainsChar(t[8..], '_');
  }

  lemma JoinFour(a: string, b: string, c: string, d: string, sep: string)
    ensures Join([a, b, c, d], sep) == a + sep + b + sep + (c + sep + d)
  {
    assert [a, b, c, d][1..] == [b, c, d];
    JoinThree(b, c, d, sep);
  }

  /** Four fields free of `c` joined with `c` split back into themselves. */
  lemma FourFields(a: string, b: string, d: string, h: string, c: char)
    requires !Contains(a, [c]) && !Contains(b, [c]) && !Contains(d, [c]) && !Contains(h, [c])
    ensures Split(Join([a, b, d, h], [c]), [c]) == [a, b, d, h]
  {
    var parts := [a, b, d, h];
    assert forall p | p in parts :: !Contains(p, [c]);
    SplitCharJoin(parts, c);
  }

  /** With a card number free of "_", the id splits back into the prefix, the
      card number, the eight-digit date and the six-digit time. */
  lemma ReportIdParts(prefix: string, cardNo: string, c: Api.Clock)
    requires Api.ValidClock(c)
    requires !Contains(prefix, "_") && !Contains(cardNo, "_")
    ensures var t := Api.Timestamp(c);
      Split(ReportId(prefix, cardNo, c), "_") == [prefix, cardNo, t[..8], t[8..]]
      && |t[..8]| == 8 && |t[8..]| == 6 && AllDigits(t[..8]) && AllDigits(t[8..])
  {
    StampHalves(c);
    var t := Api.Timestamp(c);
    JoinFour(prefix, cardNo, t[..8], t[8..], "_");
    assert "_" == ['_'];
    FourFields(prefix, cardNo, t[..8], t[8..], '_');
  }

  /** `AnalysisResponse`. */
  datatype AnalysisResponse = AnalysisResponse(
    success: bool, message: string, analysis: Option<string>,
    suggestions: Option<seq<string>>, riskLevel: Option<string>, reportId: Option<string>)

  /** The four endpoints differ only in these three constants. */
  datatype Endpoint = RoutineLab | Microbiology | Examination | Pathology

  function TemplateKey(e: Endpoint): string
  {
    match e
    case RoutineLab => "routine_lab"
    case Microbiology => "microbiology"
    case Examination => "examination"
    case Pathology => "pathology"
  }

  function IdPrefix(e: Endpoint): string
  {
    match e
    case RoutineLab => "LAB"
    case Microbiology => "MICRO"
    case Examination => "EXAM"
    case Pathology => "PATH"
  }

  function DoneMessage(e: Endpoint): string
  {
    match e
    case RoutineLab => "常规检验报告分析完成"
    case Microbiology => "微生物检验报告分析完成"
    case Examination => "检查报告分析完成"
    case Pathology => "病理报告分析完成"
  }

  /** The answer of endpoint `e` for a request with this card number and
      content, at clock time `c`. */
  function Respond(e: Endpoint, cardNo: string, content: string, c: Api.Clock): AnalysisResponse
  {
    var t := SimulateLlmAnalysis(TemplateKey(e), content);
    AnalysisResponse(true, DoneMessage(e), Some(t.analysis), Some(t.suggestions),
      Some(t.riskLevel), Some(ReportId(IdPrefix(e), cardNo, c)))
  }

  function AnalyzeRoutineLabReport(req: RoutineLabRequest, c: Api.Clock): AnalysisResponse
  {
    Respond(RoutineLab, req.cardNo, req.resultList, c)
  }

  function AnalyzeMicrobiologyReport(req: MicrobiologyRequest, c: Api.Clock): AnalysisResponse
  {
    Respond(Microbiology, req.cardNo, MicrobiologyContent(req), c)
  }

  function AnalyzeExaminationReport(req: ExaminationRequest, c: Api.Clock): AnalysisResponse
  {
    Respond(Examination, req.cardNo, ExaminationContent(req), c)
  }

  function AnalyzePathologyReport(req: PathologyRequest, c: Api.Clock): AnalysisResponse
  {
    Respond(Pathology, req.cardNo, PathologyContent(req), c)
  }

  lemma PrefixFree(e: Endpoint)
    ensures !Contains(IdPrefix(e), "_")
  {
    assert "_" == ['_'];
    match e
    case RoutineLab => NotContainsChar("LAB", '_');
    case Microbiology => NotContainsChar("MICRO", '_');
    case Examination => NotContainsChar("EXAM", '_');
    case Pathology => NotContainsChar("PATH", '_');
  }

  /** Every endpoint answers with success, its own template's four
      suggestions and risk level, and an id that splits back into its prefix,
      the card number, the date and the time. */
  lemma EndpointAnswers(e: Endpoint, cardNo: string, content: string, c: Api.Clock)
    requires Api.ValidClock(c) && !Contains(cardNo, "_")
    ensures var r := Respond(e, cardNo, content, c);
      r.success && r.suggestions.Some? && |r.suggestions.value| == 4
      && r.riskLevel == Some(SimulateLlmAnalysis(TemplateKey(e), content).riskLevel)
    ensures var t := Api.Timestamp(c);
      Respond(e, cardNo, content, c).reportId.Some?
      && Split(Respond(e, cardNo, content, c).reportId.value, "_") == [IdPrefix(e), cardNo, t[..8], t[8..]]
  {
    var r := Respond(e, cardNo, content, c);
    assert r.reportId == Some(ReportId(IdPrefix(e), cardNo, c));
    PrefixFree(e);
    ReportIdParts(IdPrefix(e), cardNo, c);
  }
}
