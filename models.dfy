// The three tables of the store (models.py) and the unit of work that reads
// and writes them.

module Models {
  import opened Common

  /** `ReportType` (report_service.py:23-28). */
  datatype ReportType = RoutineLab | Microbiology | Examination | Pathology

  /** The enum's value, which is also the `report_type` stored in the table. */
  function TypeValue(t: ReportType): (v: string)
    ensures |v| > 0
  {
    match t
    case RoutineLab => "routine_lab"
    case Microbiology => "microbiology"
    case Examination => "examination"
    case Pathology => "pathology"
  }

  /** A `DateTime` column value: the instant, in seconds, and its `str()`
      rendering ("YYYY-MM-DD HH:MM:SS"). */
  datatype DateTime = DateTime(instant: int, text: string)

  /** A row of `medical_reports_rt_yl`. */
  datatype MedicalReport = MedicalReport(
    id: int,
    cardNo: string,
    patientNo: Option<string>,
    reportType: string,
    reportDate: string,
    reportData: Value,
    deptCode: Option<string>,
    deptName: Option<string>,
    doctorCode: Option<string>,
    diagnosisCode: Option<string>,
    diagnosisName: Option<string>,
    aiAnalysis: Option<string>,
    processedAt: int,
    createdAt: int,
    updatedAt: int)

  /** A row of `report_comparison_analysis`. */
  datatype ComparisonAnalysis = ComparisonAnalysis(
    id: int,
    cardNo: string,
    patientNo: Option<string>,
    reportType: string,
    currentReportId: int,
    currentReportDate: string,
    currentReportData: Value,
    historicalReportsCount: int,
    historicalReportsData: seq<Value>,
    comparisonPeriod: string,
    langchainAnalysis: Value,
    keyChanges: Value,
    trendAnalysis: Value,
    riskAssessment: Value,
    recommendations: Value,
    analysisModel: Value,
    analysisConfidence: Value,
    analysisTokensUsed: Value,
    processedAt: int)

  /** A row of `patient_info`, with the three report columns the queries
      read (`pathology_reports`, `pacs_reports`, `microbiological_reports`);
      the declared table lacks them, see `Declared`. */
  datatype PatientInfo = PatientInfo(
    id: int,
    cardNo: string,
    patientName: Option<string>,
    deptName: Option<string>,
    regDate: Option<DateTime>,
    lisResultDetail: Option<string>,
    aiReport: Option<string>,
    pathologyReports: Option<string>,
    pacsReports: Option<string>,
    microbiologicalReports: Option<string>,
    createdAt: int,
    updatedAt: int)

  /** The text columns of `patient_info` that hold a report. */
  datatype Slot = LisResultDetail | PathologyReports | PacsReports | MicrobiologicalReports

  function SlotName(slot: Slot): (name: string)
    ensures |name| > 0
  {
    match slot
    case LisResultDetail => "lis_result_detail"
    case PathologyReports => "pathology_reports"
    case PacsReports => "pacs_reports"
    case MicrobiologicalReports => "microbiological_reports"
  }

  function SlotValue(p: PatientInfo, slot: Slot): Option<string>
  {
    match slot
    case LisResultDetail => p.lisResultDetail
    case PathologyReports => p.pathologyReports
    case PacsReports => p.pacsReports
    case MicrobiologicalReports => p.microbiologicalReports
  }

  /** Whether the declared `PatientInfo` class has the column: of the four
      report slots only `lis_result_detail` is declared (models.py:83-102). */
  predicate Declared(slot: Slot)
  {
    slot == LisResultDetail
  }

  datatype Row = ReportRow(report: MedicalReport) | ComparisonRow(comparison: ComparisonAnalysis)

  function WithId(row: Row, id: int): Row
  {
    match row
    case ReportRow(r) => ReportRow(r.(id := id))
    case ComparisonRow(c) => ComparisonRow(c.(id := id))
  }

  function ReportsOf(rows: seq<Row>): (r: seq<MedicalReport>)
    ensures |r| <= |rows|
  {
    if rows == [] then []
    else (if rows[0].ReportRow? then [rows[0].report] else []) + ReportsOf(rows[1..])
  }

  function ComparisonsOf(rows: seq<Row>): (r: seq<ComparisonAnalysis>)
    ensures |r| <= |rows|
  {
    if rows == [] then []
    else (if rows[0].ComparisonRow? then [rows[0].comparison] else []) + ComparisonsOf(rows[1..])
  }

  /** A SQLAlchemy session over the three tables: `add` stages a row and
      draws its primary key from the table's sequence, `commit` writes the
      staged rows or fails with `commitError`, `rollback` discards them. */
  class Session {
    var reports: seq<MedicalReport>
    var comparisons: seq<ComparisonAnalysis>
    var patients: seq<PatientInfo>
    var staged: seq<Row>
    var nextId: int
    const commitError: Option<string>

    constructor (reports: seq<MedicalReport>, comparisons: seq<ComparisonAnalysis>,
                 patients: seq<PatientInfo>, nextId: int, commitError: Option<string>)
      ensures this.reports == reports && this.comparisons == comparisons
      ensures this.patients == patients && this.staged == []
      ensures this.nextId == nextId && this.commitError == commitError
    {
      this.reports := reports;
      this.comparisons := comparisons;
      this.patients := patients;
      this.staged := [];
      this.nextId := nextId;
      this.commitError := commitError;
    }

    method Add(row: Row)
      modifies this
      ensures staged == old(staged) + [WithId(row, old(nextId))]
      ensures nextId == old(nextId) + 1
      ensures reports == old(reports) && comparisons == old(comparisons) && patients == old(patients)
    {
      staged := staged + [WithId(row, nextId)];
      nextId := nextId + 1;
    }

    method Commit() returns (ok: bool)
      modifies this
      ensures ok <==> commitError.None?
      ensures ok ==> reports == old(reports) + ReportsOf(old(staged))
      ensures ok ==> comparisons == old(comparisons) + ComparisonsOf(old(staged))
      ensures ok ==> staged == []
      ensures !ok ==> reports == old(reports) && comparisons == old(comparisons) && staged == old(staged)
      ensures patients == old(patients) && nextId == old(nextId)
    {
      ok := commitError.None?;
      if ok {
        reports := reports + ReportsOf(staged);
        comparisons := comparisons + ComparisonsOf(staged);
        staged := [];
      }
    }

    method Rollback()
      modifies this
      ensures staged == []
      ensures reports == old(reports) && comparisons == old(comparisons)
      ensures patients == old(patients) && nextId == old(nextId)
    {
      staged := [];
    }
  }
}
