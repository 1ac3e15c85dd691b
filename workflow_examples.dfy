/** The self-contained logic of the LangChain workflow examples: the parser
    that picks a diagnosis, recommendations and precautions out of a model's
    answer, the two demo tools an agent may call, and the age router of the
    conditional pipeline. */
module WorkflowExamples {
  import opened Common

  // ---------------------------------------------------------------- output parser

  /** `text.split(marker)[-1].split("\n")[0]`: the rest of the line after the
      last occurrence of `marker`. */
  function AfterLast(text: string, marker: string): string
    requires marker != []
  {
    FirstPiece(LastPiece(text, marker), "\n")
  }

  /** When `marker` occurs, `AfterLast` is the text that follows its last
      occurrence, up to the end of that line: `marker` occurs right before
      it, never after it, and the piece ends at a newline or at the end. */
  lemma AfterLastShape(text: string, marker: string)
    requires marker != [] && Contains(text, marker)
    ensures var q := |text| - |LastPiece(text, marker)|;
      var r := AfterLast(text, marker);
      q >= |marker| && OccursAt(text, marker, q - |marker|)
      && !Contains(text[q..], marker)
      && q + |r| <= |text| && text[q..q + |r|] == r
      && !Contains(r, "\n")
      && (q + |r| == |text| || text[q + |r|] == '\n')
  {
    LastPieceAfter(text, marker);
    var p := LastPiece(text, marker);
    var q := |text| - |p|;
    FirstPieceBefore(p, "\n");
    var r := AfterLast(text, marker);
    assert text[q..] == p;
    assert text[q..q + |r|] == p[..|r|];
    if Contains(p, "\n") {
      assert p[|r|..|r| + 1] == "\n";
      assert text[q + |r|] == p[|r|];
    }
  }

  /** `MedicalAnalysisParser.parse`: fills the result one key at a time. */
  method Parse(text: string) returns (result: map<string, string>)
    ensures "full_analysis" in result && result["full_analysis"] == text
    ensures "diagnosis" in result <==> Contains(text, "诊断") || Contains(text, "可能")
    ensures "diagnosis" in result ==>
      result["diagnosis"] == (if Contains(text, "诊断") then AfterLast(text, "诊断") else "需要进一步检查")
    ensures "recommendations" in result <==> Contains(text, "建议")
    ensures "recommendations" in result ==> result["recommendations"] == AfterLast(text, "建议")
    ensures "precautions" in result <==> Contains(text, "注意")
    ensures "precautions" in result ==> result["precautions"] == AfterLast(text, "注意")
    ensures result.Keys <= {"diagnosis", "recommendations", "precautions", "full_analysis"}
  {
    result := map[];
    if Contains(text, "诊断") || Contains(text, "可能") {
      result := result["diagnosis" := if Contains(text, "诊断") then AfterLast(text, "诊断") else "需要进一步检查"];
    }
    if Contains(text, "建议") {
      result := result["recommendations" := AfterLast(text, "建议")];
    }
    if Contains(text, "注意") {
      result := result["precautions" := AfterLast(text, "注意")];
    }
    result := result["full_analysis" := text];
  }

  // ---------------------------------------------------------------- tools

  /** `PatientInfoTool._run`. */
  function PatientInfo(patientId: string): string
  {
    match patientId
    case "001" => "张三，男，45岁，患有高血压和糖尿病"
    case "002" => "李四，女，32岁，无既往病史"
    case "003" => "王五，男，65岁，有心脏病史"
    case _ => "未找到该患者信息"
  }

  /** Only the three demo patients are found. */
  lemma PatientLookup(patientId: string)
    ensures PatientInfo(patientId) != "未找到该患者信息" <==> patientId in {"001", "002", "003"}
    ensures patientId == "001" ==> PatientInfo(patientId) == "张三，男，45岁，患有高血压和糖尿病"
  {
    if patientId in {"001", "002", "003"} {
      assert PatientInfo(patientId)[0] != "未找到该患者信息"[0];
    }
  }

  const FeverAdvice := "可能存在感染，建议检查血常规"
  const ChestPainAdvice := "需要排除心脏疾病，建议做心电图"
  const HeadacheAdvice := "可能为偏头痛或血压问题，建议测量血压"
  const NeedDetail := "需要更详细的症状描述进行分析"

  /** `SymptomAnalysisTool._run`. */
  function AnalyzeSymptoms(symptoms: string): string
  {
    if Contains(symptoms, "发热") then FeverAdvice
    else if Contains(symptoms, "胸痛") then ChestPainAdvice
    else if Contains(symptoms, "头痛") then HeadacheAdvice
    else NeedDetail
  }

  /** Fever wins over chest pain, which wins over headache; the request for
      more detail comes back exactly when none of the three is mentioned. */
  lemma SymptomPriority(symptoms: string)
    ensures Contains(symptoms, "发热") ==> AnalyzeSymptoms(symptoms) == FeverAdvice
    ensures !Contains(symptoms, "发热") && Contains(symptoms, "胸痛") ==>
      AnalyzeSymptoms(symptoms) == ChestPainAdvice
    ensures !Contains(symptoms, "发热") && !Contains(symptoms, "胸痛") && Contains(symptoms, "头痛") ==>
      AnalyzeSymptoms(symptoms) == HeadacheAdvice
    ensures AnalyzeSymptoms(symptoms) == NeedDetail <==>
      !Contains(symptoms, "发热") && !Contains(symptoms, "胸痛") && !Contains(symptoms, "头痛")
  {
    assert FeverAdvice[0] != NeedDetail[0] && ChestPainAdvice[2] != NeedDetail[2];
    assert HeadacheAdvice[0] != NeedDetail[0];
  }

  /** A mention of fever anywhere decides the answer, whatever else the
      description says. */
  lemma FeverDominates(before: string, after: string)
    ensures AnalyzeSymptoms(before + "发热" + after) == FeverAdvice
  {
    ContainsMiddle(before, "发热", after);
  }

  // ---------------------------------------------------------------- routing

  datatype Route = Pediatric | Adult | Geriatric

  /** `route_by_age`: the `age` input parsed as `int(...)`; a missing or
      unparseable age counts as adult. */
  function RouteByAge(inputs: map<string, string>): Route
  {
    var ageText := if "age" in inputs then inputs["age"] else "";
    match ParseInt(ageText)
    case None => Adult
    case Some(age) => if age < 18 then Pediatric else if age >= 65 then Geriatric else Adult
  }

  /** The three routes by age band, and the fallback. */
  lemma RouteBands(inputs: map<string, string>)
    ensures RouteByAge(inputs) == Pediatric <==>
      "age" in inputs && ParseInt(inputs["age"]).Some? && ParseInt(inputs["age"]).value < 18
    ensures RouteByAge(inputs) == Geriatric <==>
      "age" in inputs && ParseInt(inputs["age"]).Some? && ParseInt(inputs["age"]).value >= 65
    ensures "age" !in inputs ==> RouteByAge(inputs) == Adult
  {
    if "age" !in inputs {
      assert ParseInt("") == None by {
        assert Strip("") == "";
      }
    }
  }

  /** An age written out as a decimal number is routed by its value. */
  lemma RouteOfWrittenAge(age: int)
    ensures RouteByAge(map["age" := IntToString(age)])
      == (if age < 18 then Pediatric else if age >= 65 then Geriatric else Adult)
  {
    ParseIntToString(age);
  }
}
