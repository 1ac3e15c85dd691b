// ReportProcessingService (report_service.py:115-381): the per-type
// configuration, validation, the two normalisers and the pipeline
// validate -> history -> cache -> analyse -> cache -> persist -> envelope.

module ReportService {
  import opened Common
  import opened Models
  import opened LlmCache
  import opened DatabaseService

  /** `ReportData` (report_service.py:31-42). */
  datatype ReportData = ReportData(
    cardNo: string,
    reportDate: string,
    reportType: ReportType,
    data: map<string, Value>,
    patientNo: Option<string>,
    deptCode: Option<string>,
    deptName: Option<string>,
    diagnosisCode: Option<string>,
    diagnosisName: Option<string>)

  datatype TypeConfig = TypeConfig(dbType: string, analysisType: string, requiredFields: seq<string>)

  /** `_get_report_type_config`. */
  function ConfigFor(t: ReportType): TypeConfig
  {
    match t
    case RoutineLab => TypeConfig("routine_lab", "routineLab", ["cardNo", "reportDate", "resultList"])
    case Microbiology => TypeConfig("microbiology", "microbiology",
      ["cardNo", "reportDate", "microbeResultList", "bacterialResultList", "drugSensitivityList"])
    case Examination => TypeConfig("examination", "examination",
      ["cardNo", "reportDate", "examObservation", "examResult"])
    case Pathology => TypeConfig("pathology", "pathology",
      ["cardNo", "reportDate", "examObservation", "examResult"])
  }

  /** The stored type is the enum's value; the analysis type differs from it
      only for routine lab reports; every type requires the card number and
      the report date first. */
  lemma ConfigRules(t: ReportType)
    ensures ConfigFor(t).dbType == TypeValue(t)
    ensures ConfigFor(t).analysisType == if t == RoutineLab then "routineLab" else TypeValue(t)
    ensures |ConfigFor(t).requiredFields| >= 3
    ensures ConfigFor(t).requiredFields[..2] == ["cardNo", "reportDate"]
  {
  }

  // ---------------------------------------------------------------------
  // validate_report_data (report_service.py:149-172)
  // ---------------------------------------------------------------------

  /** The first field of `fields` that `data` has no key for. */
  function FirstMissing(fields: seq<string>, data: map<string, Value>): (r: Option<string>)
    ensures r.None? <==> forall i :: 0 <= i < |fields| ==> fields[i] in data
    ensures r.Some? ==> exists i :: 0 <= i < |fields| && fields[i] == r.value && r.value !in data &&
                                    forall j :: 0 <= j < i ==> fields[j] in data
  {
    if fields == [] then None
    else if fields[0] !in data then Some(fields[0])
    else
      var rest := FirstMissing(fields[1..], data);
      if rest.Some? then
        var i :| 0 <= i < |fields| - 1 && fields[1..][i] == rest.value && rest.value !in data &&
                 forall j :: 0 <= j < i ==> fields[1..][j] in data;
        assert fields[i + 1] == rest.value;
        rest
      else rest
  }

  /** Only the presence of keys matters, never their values. */
  lemma {:induction false} FirstMissingKeysOnly(fields: seq<string>, d1: map<string, Value>, d2: map<string, Value>)
    requires d1.Keys == d2.Keys
    ensures FirstMissing(fields, d1) == FirstMissing(fields, d2)
  {
    if fields != [] {
      assert fields[0] in d1 <==> fields[0] in d2;
      FirstMissingKeysOnly(fields[1..], d1, d2);
    }
  }

  function MissingMessage(field: string): string
  {
    "缺少必需字段: " + field
  }

  /** `validate_report_data`: the loop over the required fields with its
      early return. */
  method ValidateReportData(rd: ReportData) returns (ok: bool, msg: Option<string>)
    ensures ok <==> FirstMissing(ConfigFor(rd.reportType).requiredFields, rd.data).None?
    ensures ok ==> msg.None?
    ensures !ok ==> msg == Some(MissingMessage(FirstMissing(ConfigFor(rd.reportType).requiredFields, rd.data).value))
  {
    var fields := ConfigFor(rd.reportType).requiredFields;
    var i := 0;
    while i < |fields|
      invariant 0 <= i <= |fields|
      invariant forall j :: 0 <= j < i ==> fields[j] in rd.data
    {
      if fields[i] !in rd.data {
        FirstMissingAt(fields, rd.data, i);
        return false, Some(MissingMessage(fields[i]));
      }
      i := i + 1;
    }
    return true, None;
  }

  /** The field the loop stops at is the first missing one. */
  lemma {:induction false} FirstMissingAt(fields: seq<string>, data: map<string, Value>, i: nat)
    requires i < |fields| && fields[i] !in data
    requires forall j :: 0 <= j < i ==> fields[j] in data
    ensures FirstMissing(fields, data) == Some(fields[i])
  {
    if i > 0 {
      FirstMissingAt(fields[1..], data, i - 1);
    }
  }

  // ---------------------------------------------------------------------
  // prepare_analysis_data (report_service.py:174-219)
  // ---------------------------------------------------------------------

  const MicrobiologyExtraKeys: seq<string> :=
    ["diagnosisDate", "testResultCode", "testResultName", "testQuantifyResult", "testQuantifyResultUnit"]
  const ExamCommonKeys: seq<string> :=
    ["examResultCode", "examResultName", "examQuantifyResult", "examQuantifyResultUnit",
     "examObservation", "examResult"]
  const PathologyKeys: seq<string> :=
    ["chiefComplaint", "symptomDescribe", "symptomStartTime", "symptomEndTime", "diagnosisDescribe"]

  /** The keys the normaliser reads with `data[...]`, which raises KeyError
      when absent; validation guarantees them. */
  predicate Indexable(rd: ReportData)
  {
    match rd.reportType
    case RoutineLab => "resultList" in rd.data
    case Microbiology =>
      "microbeResultList" in rd.data && "bacterialResultList" in rd.data &&
      "drugSensitivityList" in rd.data
    case _ => true
  }

  lemma ValidatedIsIndexable(rd: ReportData)
    requires FirstMissing(ConfigFor(rd.reportType).requiredFields, rd.data).None?
    ensures Indexable(rd)
  {
    var fields := ConfigFor(rd.reportType).requiredFields;
    assert fields[2] in rd.data;
    if rd.reportType == Microbiology {
      assert fields[3] in rd.data && fields[4] in rd.data;
    }
  }

  /** `dst` with every key of `keys` that `src` has copied over. */
  function CopyPresent(dst: map<string, Value>, src: map<string, Value>, keys: seq<string>): map<string, Value>
  {
    dst + map k | k in keys && k in src :: src[k]
  }

  /** A key outside `keys` keeps what `dst` had. */
  lemma CopyPresentOther(dst: map<string, Value>, src: map<string, Value>, keys: seq<string>, k: string)
    requires k !in keys
    ensures k in CopyPresent(dst, src, keys) <==> k in dst
    ensures k in dst ==> CopyPresent(dst, src, keys)[k] == dst[k]
  {
  }

  /** A key of `keys` that `dst` lacks is there exactly when `src` has it. */
  lemma CopyPresentKey(dst: map<string, Value>, src: map<string, Value>, keys: seq<string>, k: string)
    requires k in keys && k !in dst
    ensures k in CopyPresent(dst, src, keys) <==> k in src
    ensures k in src ==> CopyPresent(dst, src, keys)[k] == src[k]
  {
  }

  function BaseData(rd: ReportData): map<string, Value>
  {
    map["cardNo" := Str(rd.cardNo), "reportDate" := Str(rd.reportDate)]
  }

  function MicrobiologyLists(rd: ReportData): map<string, Value>
    requires Indexable(rd) && rd.reportType == Microbiology
  {
    BaseData(rd) + map[
      "microbeResultList" := rd.data["microbeResultList"],
      "bacterialResultList" := rd.data["bacterialResultList"],
      "drugSensitivityList" := rd.data["drugSensitivityList"],
      "deptCode" := OptValue(rd.deptCode), "deptName" := OptValue(rd.deptName),
      "diagnosisCode" := OptValue(rd.diagnosisCode), "diagnosisName" := OptValue(rd.diagnosisName)]
  }

  /** The examination fields, then `patientNo` when it is truthy. */
  function WithPatientNo(rd: ReportData): map<string, Value>
  {
    var common := CopyPresent(BaseData(rd), rd.data, ExamCommonKeys);
    if Present(rd.patientNo) then common["patientNo" := Str(rd.patientNo.value)] else common
  }

  function AnalysisData(rd: ReportData): map<string, Value>
    requires Indexable(rd)
  {
    match rd.reportType
    case RoutineLab => BaseData(rd)["resultList" := rd.data["resultList"]]
    case Microbiology => CopyPresent(MicrobiologyLists(rd), rd.data, MicrobiologyExtraKeys)
    case Examination => WithPatientNo(rd)
    case Pathology => CopyPresent(WithPatientNo(rd), rd.data, PathologyKeys)
  }

  /** The optional keys each type copies when the request has them. */
  function OptionalKeys(t: ReportType): seq<string>
  {
    match t
    case RoutineLab => []
    case Microbiology => MicrobiologyExtraKeys
    case Examination => ExamCommonKeys
    case Pathology => ExamCommonKeys + PathologyKeys
  }

  lemma IdentityKeysNotOptional(k: string)
    requires k == "cardNo" || k == "reportDate"
    ensures k !in ExamCommonKeys && k !in PathologyKeys && k !in MicrobiologyExtraKeys
    ensures k != "patientNo"
  {
  }

  lemma IdentityOfPatientNo(rd: ReportData, k: string)
    requires k == "cardNo" || k == "reportDate"
    ensures k in WithPatientNo(rd) && WithPatientNo(rd)[k] == BaseData(rd)[k]
  {
    IdentityKeysNotOptional(k);
    CopyPresentOther(BaseData(rd), rd.data, ExamCommonKeys, k);
  }

  lemma IdentityOfMicrobiology(rd: ReportData, k: string)
    requires Indexable(rd) && rd.reportType == Microbiology
    requires k == "cardNo" || k == "reportDate"
    ensures k in AnalysisData(rd) && AnalysisData(rd)[k] == BaseData(rd)[k]
  {
    IdentityKeysNotOptional(k);
    ListsKeepIdentity(rd, k);
    CopyPresentOther(MicrobiologyLists(rd), rd.data, MicrobiologyExtraKeys, k);
  }

  lemma ListsKeepIdentity(rd: ReportData, k: string)
    requires Indexable(rd) && rd.reportType == Microbiology
    requires k == "cardNo" || k == "reportDate"
    ensures k in MicrobiologyLists(rd) && MicrobiologyLists(rd)[k] == BaseData(rd)[k]
  {
  }

  lemma ListsLackOptional(rd: ReportData, k: string)
    requires Indexable(rd) && rd.reportType == Microbiology && k in MicrobiologyExtraKeys
    ensures k !in MicrobiologyLists(rd)
  {
  }

  /** `cardNo` and `reportDate` always come from the record's own fields. */
  lemma AnalysisDataIdentity(rd: ReportData)
    requires Indexable(rd)
    ensures AnalysisData(rd)["cardNo"] == Str(rd.cardNo)
    ensures AnalysisData(rd)["reportDate"] == Str(rd.reportDate)
  {
    match rd.reportType
    case RoutineLab =>
    case Microbiology =>
      IdentityOfMicrobiology(rd, "cardNo");
      IdentityOfMicrobiology(rd, "reportDate");
    case Examination =>
      IdentityOfPatientNo(rd, "cardNo");
      IdentityOfPatientNo(rd, "reportDate");
    case Pathology =>
      IdentityOfPatientNo(rd, "cardNo");
      IdentityOfPatientNo(rd, "reportDate");
      IdentityKeysNotOptional("cardNo");
      IdentityKeysNotOptional("reportDate");
      CopyPresentOther(WithPatientNo(rd), rd.data, PathologyKeys, "cardNo");
      CopyPresentOther(WithPatientNo(rd), rd.data, PathologyKeys, "reportDate");
  }

  lemma OptionalOfMicrobiology(rd: ReportData, k: string)
    requires Indexable(rd) && rd.reportType == Microbiology && k in MicrobiologyExtraKeys
    ensures k in AnalysisData(rd) <==> k in rd.data
    ensures k in rd.data ==> AnalysisData(rd)[k] == rd.data[k]
  {
    ListsLackOptional(rd, k);
    CopyPresentKey(MicrobiologyLists(rd), rd.data, MicrobiologyExtraKeys, k);
  }

  lemma OptionalOfPatientNo(rd: ReportData, k: string)
    requires k in ExamCommonKeys
    ensures k in WithPatientNo(rd) <==> k in rd.data
    ensures k in rd.data ==> WithPatientNo(rd)[k] == rd.data[k]
  {
    assert k != "patientNo" && k !in BaseData(rd);
    CopyPresentKey(BaseData(rd), rd.data, ExamCommonKeys, k);
  }

  lemma OptionalOfPathology(rd: ReportData, k: string)
    requires Indexable(rd) && rd.reportType == Pathology && k in ExamCommonKeys + PathologyKeys
    ensures k in AnalysisData(rd) <==> k in rd.data
    ensures k in rd.data ==> AnalysisData(rd)[k] == rd.data[k]
  {
    if k in ExamCommonKeys {
      assert k !in PathologyKeys;
      OptionalOfPatientNo(rd, k);
      CopyPresentOther(WithPatientNo(rd), rd.data, PathologyKeys, k);
    } else {
      assert k != "patientNo" && k !in ExamCommonKeys && k !in BaseData(rd);
      CopyPresentOther(BaseData(rd), rd.data, ExamCommonKeys, k);
      CopyPresentKey(WithPatientNo(rd), rd.data, PathologyKeys, k);
    }
  }

  /** Each optional key is present exactly when the request has it, with
      the request's value. */
  lemma AnalysisDataOptional(rd: ReportData, k: string)
    requires Indexable(rd) && k in OptionalKeys(rd.reportType)
    ensures k in AnalysisData(rd) <==> k in rd.data
    ensures k in rd.data ==> AnalysisData(rd)[k] == rd.data[k]
  {
    match rd.reportType
    case Microbiology => OptionalOfMicrobiology(rd, k);
    case Examination => OptionalOfPatientNo(rd, k);
    case Pathology => OptionalOfPathology(rd, k);
  }

  lemma PatientNoOfPatientNo(rd: ReportData)
    ensures "patientNo" in WithPatientNo(rd) <==> Present(rd.patientNo)
  {
    assert "patientNo" !in ExamCommonKeys && "patientNo" !in BaseData(rd);
    CopyPresentOther(BaseData(rd), rd.data, ExamCommonKeys, "patientNo");
  }

  lemma PatientNoOfMicrobiology(rd: ReportData)
    requires Indexable(rd) && rd.reportType == Microbiology
    ensures "patientNo" !in AnalysisData(rd) && "deptCode" in AnalysisData(rd)
  {
    assert "patientNo" !in MicrobiologyExtraKeys && "patientNo" !in MicrobiologyLists(rd);
    assert "deptCode" in MicrobiologyLists(rd);
    CopyPresentOther(MicrobiologyLists(rd), rd.data, MicrobiologyExtraKeys, "patientNo");
  }

  lemma NoDeptCode(rd: ReportData)
    ensures "deptCode" !in WithPatientNo(rd)
  {
    assert "deptCode" !in ExamCommonKeys && "deptCode" !in BaseData(rd);
    CopyPresentOther(BaseData(rd), rd.data, ExamCommonKeys, "deptCode");
  }

  /** `patientNo` only for examination and pathology reports whose patient
      number is non-empty; department fields only for microbiology. */
  lemma AnalysisDataPatientNo(rd: ReportData)
    requires Indexable(rd)
    ensures "patientNo" in AnalysisData(rd) <==>
            (rd.reportType == Examination || rd.reportType == Pathology) && Present(rd.patientNo)
    ensures "deptCode" in AnalysisData(rd) <==> rd.reportType == Microbiology
  {
    match rd.reportType
    case RoutineLab =>
    case Microbiology => PatientNoOfMicrobiology(rd);
    case Examination =>
      PatientNoOfPatientNo(rd);
      NoDeptCode(rd);
    case Pathology =>
      PatientNoOfPatientNo(rd);
      NoDeptCode(rd);
      assert "patientNo" !in PathologyKeys && "deptCode" !in PathologyKeys;
      CopyPresentOther(WithPatientNo(rd), rd.data, PathologyKeys, "patientNo");
      CopyPresentOther(WithPatientNo(rd), rd.data, PathologyKeys, "deptCode");
  }

  /** A routine lab report yields exactly `{cardNo, reportDate, resultList}`. */
  lemma AnalysisDataRoutineLab(rd: ReportData)
    requires Indexable(rd) && rd.reportType == RoutineLab
    ensures AnalysisData(rd).Keys == {"cardNo", "reportDate", "resultList"}
    ensures AnalysisData(rd)["resultList"] == rd.data["resultList"]
  {
  }

  /** Copying one more key is one more update. */
  lemma CopyPresentStep(dst: map<string, Value>, src: map<string, Value>, pre: seq<string>, k: string)
    ensures CopyPresent(dst, src, pre + [k]) ==
      if k in src then CopyPresent(dst, src, pre)[k := src[k]] else CopyPresent(dst, src, pre)
  {
    var before := CopyPresent(dst, src, pre);
    var after := CopyPresent(dst, src, pre + [k]);
    var expected := if k in src then before[k := src[k]] else before;
    forall j ensures j in after <==> j in expected {
      assert j in pre + [k] <==> j in pre || j == k;
    }
    forall j | j in after ensures after[j] == expected[j] {
      assert j in pre + [k] <==> j in pre || j == k;
    }
  }

  /** The key-copy loop (`for key in [...]: if key in data: ...`). */
  method CopyPresentKeys(dst: map<string, Value>, src: map<string, Value>, keys: seq<string>)
    returns (r: map<string, Value>)
    ensures r == CopyPresent(dst, src, keys)
  {
    r := dst;
    var i := 0;
    assert CopyPresent(dst, src, keys[..0]) == dst;
    while i < |keys|
      invariant 0 <= i <= |keys|
      invariant r == CopyPresent(dst, src, keys[..i])
    {
      CopyPresentStep(dst, src, keys[..i], keys[i]);
      assert keys[..i + 1] == keys[..i] + [keys[i]];
      if keys[i] in src {
        r := r[keys[i] := src[keys[i]]];
      }
      i := i + 1;
    }
    assert keys[..i] == keys;
  }

  method PrepareAnalysisData(rd: ReportData) returns (r: map<string, Value>)
    requires Indexable(rd)
    ensures r == AnalysisData(rd)
  {
    r := map["cardNo" := Str(rd.cardNo), "reportDate" := Str(rd.reportDate)];
    match rd.reportType {
      case RoutineLab =>
        r := r["resultList" := rd.data["resultList"]];
      case Microbiology =>
        r := r + map[
          "microbeResultList" := rd.data["microbeResultList"],
          "bacterialResultList" := rd.data["bacterialResultList"],
          "drugSensitivityList" := rd.data["drugSensitivityList"],
          "deptCode" := OptValue(rd.deptCode), "deptName" := OptValue(rd.deptName),
          "diagnosisCode" := OptValue(rd.diagnosisCode), "diagnosisName" := OptValue(rd.diagnosisName)];
        assert r == MicrobiologyLists(rd);
        r := CopyPresentKeys(r, rd.data, MicrobiologyExtraKeys);
      case Examination =>
        r := CopyPresentKeys(r, rd.data, ExamCommonKeys);
        if Present(rd.patientNo) {
          r := r["patientNo" := Str(rd.patientNo.value)];
        }
      case Pathology =>
        r := CopyPresentKeys(r, rd.data, ExamCommonKeys);
        if Present(rd.patientNo) {
          r := r["patientNo" := Str(rd.patientNo.value)];
        }
        assert r == WithPatientNo(rd);
        r := CopyPresentKeys(r, rd.data, PathologyKeys);
    }
  }

  // ---------------------------------------------------------------------
  // prepare_database_data (report_service.py:221-263)
  // ---------------------------------------------------------------------

  /** The JSON stored in `report_data`: the lab result list itself, or the
      other types' fields under snake_case names, absent ones as null. */
  function DatabaseData(rd: ReportData): Value
    requires Indexable(rd)
  {
    var d := rd.data;
    match rd.reportType
    case RoutineLab => d["resultList"]
    case Microbiology => Object(map[
      "microbe_result_list" := d["microbeResultList"],
      "bacterial_result_list" := d["bacterialResultList"],
      "drug_sensitivity_list" := d["drugSensitivityList"],
      "diagnosis_date" := Get(d, "diagnosisDate"),
      "test_result_code" := Get(d, "testResultCode"),
      "test_result_name" := Get(d, "testResultName"),
      "test_quantify_result" := Get(d, "testQuantifyResult"),
      "test_quantify_result_unit" := Get(d, "testQuantifyResultUnit")])
    case Examination => Object(map[
      "exam_result_code" := Get(d, "examResultCode"),
      "exam_result_name" := Get(d, "examResultName"),
      "exam_quantify_result" := Get(d, "examQuantifyResult"),
      "exam_quantify_result_unit" := Get(d, "examQuantifyResultUnit"),
      "exam_observation" := Get(d, "examObservation"),
      "exam_result" := Get(d, "examResult")])
    case Pathology => Object(map[
      "chief_complaint" := Get(d, "chiefComplaint"),
      "symptom_describe" := Get(d, "symptomDescribe"),
      "symptom_start_time" := Get(d, "symptomStartTime"),
      "symptom_end_time" := Get(d, "symptomEndTime"),
      "exam_result_code" := Get(d, "examResultCode"),
      "exam_result_name" := Get(d, "examResultName"),
      "exam_quantify_result" := Get(d, "examQuantifyResult"),
      "exam_quantify_result_unit" := Get(d, "examQuantifyResultUnit"),
      "diagnosis_describe" := Get(d, "diagnosisDescribe"),
      "exam_observation" := Get(d, "examObservation"),
      "exam_result" := Get(d, "examResult")])
  }

  /** A stored column value: null, or one of the request's values. */
  predicate FromRequest(d: map<string, Value>, v: Value)
  {
    v == Null || v in d.Values
  }

  lemma GetFromRequest(d: map<string, Value>, k: string)
    ensures FromRequest(d, Get(d, k))
  {
    if k in d {
      assert d[k] in d.Values;
    }
  }

  /** Every column of a non-lab record holds a request value or null. */
  predicate ColumnsFromRequest(rd: ReportData)
    requires Indexable(rd)
  {
    DatabaseData(rd).Object? &&
    forall c :: c in DatabaseData(rd).fields ==> FromRequest(rd.data, DatabaseData(rd).fields[c])
  }

  lemma MicrobiologyColumns(rd: ReportData)
    requires Indexable(rd) && rd.reportType == Microbiology
    ensures ColumnsFromRequest(rd)
  {
    var d := rd.data;
    assert d["microbeResultList"] in d.Values;
    assert d["bacterialResultList"] in d.Values;
    assert d["drugSensitivityList"] in d.Values;
    GetFromRequest(d, "diagnosisDate");
    GetFromRequest(d, "testResultCode");
    GetFromRequest(d, "testResultName");
    GetFromRequest(d, "testQuantifyResult");
    GetFromRequest(d, "testQuantifyResultUnit");
  }

  lemma ExaminationColumns(rd: ReportData)
    requires Indexable(rd) && rd.reportType == Examination
    ensures ColumnsFromRequest(rd)
  {
    var d := rd.data;
    GetFromRequest(d, "examResultCode");
    GetFromRequest(d, "examResultName");
    GetFromRequest(d, "examQuantifyResult");
    GetFromRequest(d, "examQuantifyResultUnit");
    GetFromRequest(d, "examObservation");
    GetFromRequest(d, "examResult");
  }

  lemma PathologyColumns(rd: ReportData)
    requires Indexable(rd) && rd.reportType == Pathology
    ensures ColumnsFromRequest(rd)
  {
    var d := rd.data;
    GetFromRequest(d, "chiefComplaint");
    GetFromRequest(d, "symptomDescribe");
    GetFromRequest(d, "symptomStartTime");
    GetFromRequest(d, "symptomEndTime");
    GetFromRequest(d, "examResultCode");
    GetFromRequest(d, "examResultName");
    GetFromRequest(d, "examQuantifyResult");
    GetFromRequest(d, "examQuantifyResultUnit");
    GetFromRequest(d, "diagnosisDescribe");
    GetFromRequest(d, "examObservation");
    GetFromRequest(d, "examResult");
  }

  /** The stored JSON is built from the request alone: the lab result list
      itself, or columns each holding a request value or null (for an
      absent optional key); the three microbiology lists are stored as
      given. */
  lemma DatabaseDataFromRequest(rd: ReportData)
    requires Indexable(rd)
    ensures rd.reportType == RoutineLab ==> DatabaseData(rd) == rd.data["resultList"]
    ensures rd.reportType != RoutineLab ==>
      DatabaseData(rd).Object? &&
      forall c :: c in DatabaseData(rd).fields ==>
        DatabaseData(rd).fields[c] == Null || DatabaseData(rd).fields[c] in rd.data.Values
    ensures rd.reportType == Microbiology ==>
      DatabaseData(rd).fields["microbe_result_list"] == rd.data["microbeResultList"] &&
      DatabaseData(rd).fields["bacterial_result_list"] == rd.data["bacterialResultList"] &&
      DatabaseData(rd).fields["drug_sensitivity_list"] == rd.data["drugSensitivityList"]
  {
    match rd.reportType
    case RoutineLab =>
    case Microbiology => MicrobiologyColumns(rd);
    case Examination => ExaminationColumns(rd);
    case Pathology => PathologyColumns(rd);
  }

  // ---------------------------------------------------------------------
  // process_report (report_service.py:275-381)
  // ---------------------------------------------------------------------

  /** The `patient_info` column each type's history is read from. */
  function HistorySlot(t: ReportType): Slot
  {
    match t
    case Microbiology => MicrobiologicalReports
    case Examination => PacsReports
    case Pathology => PathologyReports
    case RoutineLab => LisResultDetail
  }

  /** The `report_date` of the historical report: `reg_date_str`, else the
      rendered `reg_date`. */
  function HistoryDate(rec: LatestRecord): string
  {
    if rec.regDateStr != "" then rec.regDateStr
    else if rec.regDate.Some? then rec.regDate.value.text
    else ""
  }

  /** The dict step 3 builds from the latest record. */
  function HistoryDict(rec: LatestRecord, slot: Slot): (h: map<string, Value>)
    ensures "report_content" in h && h["report_content"] == Str(rec.content)
    ensures "report_date" in h && h["report_date"] == Str(HistoryDate(rec))
  {
    map["card_no" := Str(rec.cardNo), "patient_name" := Str(rec.patientName),
        "report_date" := Str(HistoryDate(rec)), "content_type" := Str(SlotName(slot)),
        "source" := Str("patient_info_table"), "data_type" := Str("structured_text"),
        "reg_date" := Str(HistoryDate(rec)), "report_content" := Str(rec.content)]
  }

  /** Step 3: the historical report dict, or None when no latest slot exists
      or the slot is blank once stripped. */
  function HistoricalReport(patients: seq<PatientInfo>, rd: ReportData): Option<map<string, Value>>
  {
    var latest := LatestSlot(patients, rd.cardNo, HistorySlot(rd.reportType));
    if latest.None? || latest.value.content == "" then None
    else Some(HistoryDict(latest.value, HistorySlot(rd.reportType)))
  }

  /** No history without a row of the card whose slot is non-empty. */
  lemma NoQualifyingRowNoHistory(patients: seq<PatientInfo>, rd: ReportData)
    requires forall p :: p in patients ==> !Qualifies(p, rd.cardNo, HistorySlot(rd.reportType))
    ensures HistoricalReport(patients, rd).None?
  {
    LatestSlotSpec(patients, rd.cardNo, HistorySlot(rd.reportType));
  }

  /** A history's content is the stripped, non-blank slot of a row of the
      card that comes first in the order. */
  lemma HistoryFromLatestRow(patients: seq<PatientInfo>, rd: ReportData)
    requires HistoricalReport(patients, rd).Some?
    ensures exists p :: (p in patients && Qualifies(p, rd.cardNo, HistorySlot(rd.reportType)) &&
      (forall q :: q in patients && Qualifies(q, rd.cardNo, HistorySlot(rd.reportType)) ==> LatestFirst(p, q)) &&
      Strip(SlotValue(p, HistorySlot(rd.reportType)).value) != "" &&
      HistoricalReport(patients, rd).value["report_content"] == Str(Strip(SlotValue(p, HistorySlot(rd.reportType)).value)))
  {
    var slot := HistorySlot(rd.reportType);
    LatestSlotSpec(patients, rd.cardNo, slot);
    var p :| p in patients && Qualifies(p, rd.cardNo, slot) &&
             LatestSlot(patients, rd.cardNo, slot).value == ToLatestRecord(p, slot) &&
             forall q :: q in patients && Qualifies(q, rd.cardNo, slot) ==> LatestFirst(p, q);
    assert HistoricalReport(patients, rd).value["report_content"] == Str(Strip(SlotValue(p, slot).value));
  }

  /** Step 3 as it runs against the declared `PatientInfo` table: the
      pathology, PACS and microbiology lookups raise on the undeclared
      column and answer None (`DatabaseService.LatestSlotAsWritten`). The
      pipeline itself uses the intended `HistoricalReport`. */
  function HistoricalReportAsWritten(patients: seq<PatientInfo>, rd: ReportData): Option<map<string, Value>>
  {
    var latest := LatestSlotAsWritten(patients, rd.cardNo, HistorySlot(rd.reportType));
    if latest.None? || latest.value.content == "" then None
    else Some(HistoryDict(latest.value, HistorySlot(rd.reportType)))
  }

  /** As run, a microbiology, examination or pathology report never has a
      history, so its cache key records none and it is analysed as a first
      report; a routine lab report gets the intended history. */
  lemma HistoryAsWritten(patients: seq<PatientInfo>, rd: ReportData, t: string, d: map<string, Value>)
    ensures rd.reportType != RoutineLab ==> HistoricalReportAsWritten(patients, rd).None?
    ensures rd.reportType != RoutineLab ==> !GenerateKey(t, d, HistoricalReportAsWritten(patients, rd)).hasHistory
    ensures rd.reportType == RoutineLab ==> HistoricalReportAsWritten(patients, rd) == HistoricalReport(patients, rd)
  {
    LatestAsWrittenAgreesOnLab(patients, rd.cardNo, HistorySlot(rd.reportType));
  }

  /** The cache key of a request with history records the history's date. */
  lemma HistoryDateKeyed(patients: seq<PatientInfo>, rd: ReportData, t: string, d: map<string, Value>)
    requires HistoricalReport(patients, rd).Some?
    ensures GenerateKey(t, d, HistoricalReport(patients, rd)).historyDate ==
            Some(HistoricalReport(patients, rd).value["report_date"])
  {
    assert HistoricalReport(patients, rd).value != map[] by {
      assert "report_date" in HistoricalReport(patients, rd).value;
    }
  }

  /** A slot holding only whitespace passes the query's `!= ''` filter but
      gives no history. */
  lemma BlankSlotGivesNoHistory(patients: seq<PatientInfo>, rd: ReportData)
    requires LatestSlot(patients, rd.cardNo, HistorySlot(rd.reportType)).Some?
    requires forall p :: p in patients && Qualifies(p, rd.cardNo, HistorySlot(rd.reportType)) ==>
               forall i :: 0 <= i < |SlotValue(p, HistorySlot(rd.reportType)).value| ==>
                 IsSpace(SlotValue(p, HistorySlot(rd.reportType)).value[i])
    ensures HistoricalReport(patients, rd).None?
  {
    var slot := HistorySlot(rd.reportType);
    LatestSlotSpec(patients, rd.cardNo, slot);
    var p :| p in patients && Qualifies(p, rd.cardNo, slot) &&
             LatestSlot(patients, rd.cardNo, slot).value == ToLatestRecord(p, slot) &&
             forall q :: q in patients && Qualifies(q, rd.cardNo, slot) ==> LatestFirst(p, q);
    StripAllSpace(SlotValue(p, slot).value);
  }

  /** What `analyze_func` is asked. */
  datatype AnalysisRequest = AnalysisRequest(
    analysisType: string,
    data: map<string, Value>,
    history: Option<map<string, Value>>)

  /** `analyze_func`: answers a request with a text, or raises (`Err`
      carries `str(e)`); it records every call. */
  class Analyzer {
    const respond: AnalysisRequest -> Result<string, string>
    var calls: seq<AnalysisRequest>

    constructor (respond: AnalysisRequest -> Result<string, string>)
      ensures this.respond == respond && calls == []
    {
      this.respond := respond;
      calls := [];
    }

    method Analyze(req: AnalysisRequest) returns (r: Result<string, string>)
      modifies this
      ensures r == respond(req)
      ensures calls == old(calls) + [req]
    {
      r := respond(req);
      calls := calls + [req];
    }
  }

  /** Python's message for `min()` over no keys. */
  const MinOfEmptyError: string := "min() arg is an empty sequence"

  function FailureMessage(e: string): string
  {
    "处理失败: " + e
  }

  function SuccessEnvelope(cardNo: string, now: int, ai: string): map<string, Value>
  {
    map["code" := Str("200"), "cardNo" := Str(cardNo), "processed_at" := Int(now), "ai_analysis" := Str(ai)]
  }

  /** The `MedicalReport` row step 8 adds (its id is drawn on `add`). */
  function StoredReport(rd: ReportData, ai: string, now: int): MedicalReport
    requires Indexable(rd)
  {
    MedicalReport(0, rd.cardNo, rd.patientNo, ConfigFor(rd.reportType).dbType, rd.reportDate,
                  DatabaseData(rd), rd.deptCode, rd.deptName, None, rd.diagnosisCode,
                  rd.diagnosisName, Some(ai), now, now, now)
  }

  function RequestFor(patients: seq<PatientInfo>, rd: ReportData): AnalysisRequest
    requires Indexable(rd)
  {
    AnalysisRequest(ConfigFor(rd.reportType).analysisType, AnalysisData(rd), HistoricalReport(patients, rd))
  }

  function KeyFor(req: AnalysisRequest): CacheKey
  {
    GenerateKey(req.analysisType, req.data, req.history)
  }

  /** `if cached_result:` -- an empty cached text counts as a miss. */
  predicate UsableHit(hit: Option<string>)
  {
    hit.Some? && hit.value != ""
  }

  /** The cache after `get`: an expired entry for the key is gone. */
  function AfterGet(c: map<CacheKey, Entry>, k: CacheKey, now: int, ttl: int): map<CacheKey, Entry>
  {
    if Lookup(c, k, now, ttl).None? then c - {k} else c
  }

  /** Whether `set` can run: a full cache must have a key to evict. */
  predicate Storable(c: map<CacheKey, Entry>, maxSize: int)
  {
    |c| < maxSize || c != map[]
  }

  /** The analysis text: the usable cached one, else the analyser's answer. */
  function Outcome(hit: Option<string>, answer: Result<string, string>): Result<string, string>
  {
    if UsableHit(hit) then Ok(hit.value) else answer
  }

  /** Steps 4-6: the analysis text, or the message of the exception that
      stops them -- the analyser's, or `min()`'s on an unstorable cache. */
  function AnalysisOutcome(hit: Option<string>, answer: Result<string, string>,
                           afterGet: map<CacheKey, Entry>, maxSize: int): (o: Result<string, string>)
    ensures o.Ok? ==> o == Outcome(hit, answer)
    ensures o.Err? && !UsableHit(hit) && answer.Ok? ==> o.error == MinOfEmptyError
  {
    if Outcome(hit, answer).Err? then Outcome(hit, answer)
    else if !UsableHit(hit) && !Storable(afterGet, maxSize) then Err(MinOfEmptyError)
    else Outcome(hit, answer)
  }

  /** The message of the exception that ends the pipeline, if any: the
      analysis step's, else the commit's. */
  function PipelineError(outcome: Result<string, string>, commitError: Option<string>): Option<string>
  {
    if outcome.Err? then Some(outcome.error) else commitError
  }

  class ReportProcessingService {
    const llmCache: LLMCache

    /** A 200-entry cache with a 12-hour TTL. */
    constructor ()
      ensures fresh(llmCache) && llmCache.Valid() && llmCache.cache == map[]
      ensures llmCache.maxSize == 200 && llmCache.ttl == 12 * 3600
    {
      llmCache := new LLMCache(200, 12);
    }

    /** `cleanup_cache`. */
    method CleanupCache(now: int)
      requires llmCache.Valid()
      modifies llmCache
      ensures llmCache.Valid()
      ensures llmCache.cache == Pruned(old(llmCache.cache), now, llmCache.ttl)
    {
      llmCache.ClearExpired(now);
    }

    /** Steps 4-6: consult the cache, call the analyser on a miss and cache
        its answer. */
    method ObtainAnalysis(req: AnalysisRequest, analyzer: Analyzer, now: int)
      returns (res: Result<string, string>)
      requires llmCache.Valid()
      modifies llmCache, analyzer
      ensures llmCache.Valid()
      ensures var hit := Lookup(old(llmCache.cache), KeyFor(req), now, llmCache.ttl);
        var afterGet := AfterGet(old(llmCache.cache), KeyFor(req), now, llmCache.ttl);
        var answer := analyzer.respond(req);
        res == AnalysisOutcome(hit, answer, afterGet, llmCache.maxSize) &&
        analyzer.calls == (if UsableHit(hit) then old(analyzer.calls) else old(analyzer.calls) + [req]) &&
        (!UsableHit(hit) && answer.Ok? && Storable(afterGet, llmCache.maxSize) ==>
           Stored(afterGet, llmCache.cache, KeyFor(req), Entry(answer.value, now), llmCache.maxSize)) &&
        (UsableHit(hit) || answer.Err? || !Storable(afterGet, llmCache.maxSize) ==>
           llmCache.cache == afterGet)
    {
      var cached := llmCache.Get(req.analysisType, req.data, req.history, now);
      if cached.Some? && cached.value != "" {
        res := Ok(cached.value);
        return;
      }
      var answer := analyzer.Analyze(req);
      if answer.Err? {
        res := answer;
        return;
      }
      var stored := llmCache.Set(req.analysisType, req.data, answer.value, req.history, now);
      res := if stored then answer else Err(MinOfEmptyError);
    }

    /** `process_report`, with the clock as `now` and `error_handler` as a
        function of the card number and the message. */
    method ProcessReport(rd: ReportData, db: Session, analyzer: Analyzer,
                         errorHandler: (string, string) -> map<string, Value>, now: int)
      returns (r: map<string, Value>)
      requires llmCache.Valid() && db.staged == []
      modifies llmCache, db, analyzer
      ensures llmCache.Valid() && db.staged == []
      ensures db.patients == old(db.patients) && db.comparisons == old(db.comparisons)
      // 1. a failed validation answers through the error handler and touches nothing
      ensures var missing := FirstMissing(ConfigFor(rd.reportType).requiredFields, rd.data);
        missing.Some? ==>
          r == errorHandler(rd.cardNo, MissingMessage(missing.value)) &&
          analyzer.calls == old(analyzer.calls) && db.reports == old(db.reports) &&
          llmCache.cache == old(llmCache.cache)
      // 2-8. otherwise the analysis runs on the request built from the report
      // and its history, and the report is stored unless an exception intervenes
      ensures FirstMissing(ConfigFor(rd.reportType).requiredFields, rd.data).None? ==>
        Indexable(rd) && PipelineRan(rd, r, db, analyzer, errorHandler, now,
                                     old(db.patients), old(db.reports), old(db.nextId),
                                     old(llmCache.cache), old(analyzer.calls))
    {
      var ok, msg := ValidateReportData(rd);
      if !ok {
        r := errorHandler(rd.cardNo, msg.value);
        return;
      }
      ValidatedIsIndexable(rd);
      r := RunPipeline(rd, db, analyzer, errorHandler, now);
    }

    /** What steps 2-8 leave behind, given the state they started from. */
    ghost predicate PipelineRan(rd: ReportData, r: map<string, Value>, db: Session, analyzer: Analyzer,
                                errorHandler: (string, string) -> map<string, Value>, now: int,
                                patients: seq<PatientInfo>, reports: seq<MedicalReport>, nextId: int,
                                cache: map<CacheKey, Entry>, calls: seq<AnalysisRequest>)
      requires Indexable(rd)
      reads this, llmCache, db, analyzer
    {
      var req := RequestFor(patients, rd);
      var hit := Lookup(cache, KeyFor(req), now, llmCache.ttl);
      var afterGet := AfterGet(cache, KeyFor(req), now, llmCache.ttl);
      var outcome := AnalysisOutcome(hit, analyzer.respond(req), afterGet, llmCache.maxSize);
      var err := PipelineError(outcome, db.commitError);
      analyzer.calls == (if UsableHit(hit) then calls else calls + [req]) &&
      // the analyser's answer is cached whether or not the commit succeeds
      (!UsableHit(hit) && analyzer.respond(req).Ok? && Storable(afterGet, llmCache.maxSize) ==>
         Stored(afterGet, llmCache.cache, KeyFor(req), Entry(analyzer.respond(req).value, now), llmCache.maxSize)) &&
      (UsableHit(hit) || analyzer.respond(req).Err? || !Storable(afterGet, llmCache.maxSize) ==>
         llmCache.cache == afterGet) &&
      (err.Some? ==> r == errorHandler(rd.cardNo, FailureMessage(err.value)) && db.reports == reports) &&
      (err.None? ==> r == SuccessEnvelope(rd.cardNo, now, outcome.value) &&
                     db.reports == reports + [StoredReport(rd, outcome.value, now).(id := nextId)])
    }

    /** Steps 2-8 on a validated report. */
    method RunPipeline(rd: ReportData, db: Session, analyzer: Analyzer,
                       errorHandler: (string, string) -> map<string, Value>, now: int)
      returns (r: map<string, Value>)
      requires Indexable(rd) && llmCache.Valid() && db.staged == []
      modifies llmCache, db, analyzer
      ensures llmCache.Valid() && db.staged == []
      ensures db.patients == old(db.patients) && db.comparisons == old(db.comparisons)
      ensures PipelineRan(rd, r, db, analyzer, errorHandler, now, old(db.patients), old(db.reports),
                          old(db.nextId), old(llmCache.cache), old(analyzer.calls))
    {
      var analysisData := PrepareAnalysisData(rd);
      var history := HistoricalReport(db.patients, rd);
      var req := AnalysisRequest(ConfigFor(rd.reportType).analysisType, analysisData, history);
      assert req == RequestFor(db.patients, rd);
      var res := ObtainAnalysis(req, analyzer, now);
      if res.Err? {
        db.Rollback();
        r := errorHandler(rd.cardNo, FailureMessage(res.error));
        return;
      }
      var committed := StoreReport(db, rd, res.value, now);
      if !committed {
        r := errorHandler(rd.cardNo, FailureMessage(db.commitError.value));
        return;
      }
      r := SuccessEnvelope(rd.cardNo, now, res.value);
    }
  }

  /** Step 8: `db.add(report)`, `db.commit()`, and `db.rollback()` when the
      commit fails. */
  method StoreReport(db: Session, rd: ReportData, ai: string, now: int) returns (committed: bool)
    requires Indexable(rd) && db.staged == []
    modifies db
    ensures db.staged == [] && db.patients == old(db.patients) && db.comparisons == old(db.comparisons)
    ensures committed <==> db.commitError.None?
    ensures committed ==> db.reports == old(db.reports) + [StoredReport(rd, ai, now).(id := old(db.nextId))]
    ensures !committed ==> db.reports == old(db.reports)
  {
    var row := StoredReport(rd, ai, now);
    db.Add(ReportRow(row));
    committed := db.Commit();
    if !committed {
      db.Rollback();
      return;
    }
    ReportsOfSingle(row.(id := old(db.nextId)));
  }

  lemma ReportsOfSingle(m: MedicalReport)
    ensures ReportsOf([ReportRow(m)]) == [m]
  {
    assert [ReportRow(m)][1..] == [];
  }

  /** Once an answer is cached, the same request before the TTL runs out
      is answered from the cache, without the analyser. */
  lemma RepeatServedFromCache(afterGet: map<CacheKey, Entry>, after: map<CacheKey, Entry>,
                              req: AnalysisRequest, ai: string, now: int, later: int,
                              ttl: int, maxSize: int)
    requires Stored(afterGet, after, KeyFor(req), Entry(ai, now), maxSize)
    requires later - now < ttl && ai != ""
    ensures UsableHit(Lookup(after, KeyFor(req), later, ttl))
    ensures Outcome(Lookup(after, KeyFor(req), later, ttl), Err("")) == Ok(ai)
  {
    GetAfterSet(afterGet, after, req.analysisType, req.data, req.history, ai, now, later, ttl, maxSize);
  }
}
