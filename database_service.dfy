// DatabaseService (database_service.py): every read is a filter, an order
// and a slice over one table; the one write stores a comparison analysis.

module DatabaseService {
  import opened Common
  import opened Models
  import opened SeqQuery

  const Day: int := 86400
  /** `datetime.min` (0001-01-01 00:00:00) in seconds from 1970-01-01. */
  const DatetimeMin: int := -62135596800

  /** `_get_date_filter`: the earliest `created_at` a comparison period
      admits. */
  function DateFilter(period: string, now: int): int
  {
    if period == "1month" then now - 30 * Day
    else if period == "3months" then now - 90 * Day
    else if period == "6months" then now - 180 * Day
    else if period == "1year" then now - 365 * Day
    else if period == "all" then DatetimeMin
    else now - 180 * Day
  }

  predicate KnownPeriod(period: string)
  {
    period in ["1month", "3months", "6months", "1year", "all"]
  }

  /** An unknown period falls back to six months, and the named windows are
      nested: a longer period admits every row a shorter one admits. */
  lemma DateFilterWindows(period: string, now: int)
    requires now >= DatetimeMin + 365 * Day
    ensures !KnownPeriod(period) ==> DateFilter(period, now) == DateFilter("6months", now)
    ensures DateFilter("all", now) <= DateFilter("1year", now) <= DateFilter("6months", now)
            <= DateFilter("3months", now) <= DateFilter("1month", now) < now
    ensures DateFilter(period, now) < now
  {
  }

  // ---------------------------------------------------------------------
  // Historical reports of one type (get_routine_lab_reports and the other
  // three get_*_reports, database_service.py:40-260)
  // ---------------------------------------------------------------------

  /** `if exclude_report_id:` -- neither None nor 0 excludes a row. */
  predicate Excludes(exclude: Option<int>)
  {
    exclude.Some? && exclude.value != 0
  }

  predicate InWindow(r: MedicalReport, cardNo: string, t: ReportType, cutoff: int, exclude: Option<int>)
  {
    r.cardNo == cardNo && r.reportType == TypeValue(t) && r.createdAt >= cutoff &&
    !(Excludes(exclude) && r.id == exclude.value)
  }

  /** `ORDER BY created_at DESC`. */
  predicate NewestFirst(a: MedicalReport, b: MedicalReport)
  {
    a.createdAt >= b.createdAt
  }

  lemma NewestFirstOrdering()
    ensures Ordering(NewestFirst)
  {
  }

  function HistoryRows(reports: seq<MedicalReport>, cardNo: string, t: ReportType,
                       period: string, now: int, exclude: Option<int>): seq<MedicalReport>
  {
    var cutoff := DateFilter(period, now);
    SortBy(Filter(reports, (r: MedicalReport) => InWindow(r, cardNo, t, cutoff, exclude)), NewestFirst)
  }

  /** The rows returned are exactly the card's rows of that type inside the
      window (minus the excluded id), each once as often as stored, newest
      `created_at` first. */
  lemma HistoryRowsSpec(reports: seq<MedicalReport>, cardNo: string, t: ReportType,
                        period: string, now: int, exclude: Option<int>)
    ensures var rows := HistoryRows(reports, cardNo, t, period, now, exclude);
      (forall r :: r in rows <==> r in reports && InWindow(r, cardNo, t, DateFilter(period, now), exclude)) &&
      Sorted(rows, NewestFirst) &&
      multiset(rows) == multiset(Filter(reports, (r: MedicalReport) => InWindow(r, cardNo, t, DateFilter(period, now), exclude)))
  {
    var cutoff := DateFilter(period, now);
    var matching := Filter(reports, (r: MedicalReport) => InWindow(r, cardNo, t, cutoff, exclude));
    SortByMembers(matching, NewestFirst);
    NewestFirstOrdering();
    SortBySorted(matching, NewestFirst);
  }

  /** Passing `exclude_report_id` as None or 0 gives the same rows. */
  lemma ExcludeFalsyIgnored(reports: seq<MedicalReport>, cardNo: string, t: ReportType,
                            period: string, now: int)
    ensures HistoryRows(reports, cardNo, t, period, now, Some(0)) ==
            HistoryRows(reports, cardNo, t, period, now, None)
  {
    var cutoff := DateFilter(period, now);
    FilterSame(reports, (r: MedicalReport) => InWindow(r, cardNo, t, cutoff, Some(0)),
               (r: MedicalReport) => InWindow(r, cardNo, t, cutoff, None));
  }

  /** The dict each query builds from a row: routine lab reports carry
      neither `patient_no` nor department and diagnosis columns,
      microbiology adds the department and diagnosis columns, examination
      adds `patient_no`, pathology adds both. */
  function HistoryDict(t: ReportType, r: MedicalReport): map<string, Value>
  {
    var withPatient := if t == Examination || t == Pathology
                       then RowColumns(r)["patient_no" := OptValue(r.patientNo)] else RowColumns(r);
    if t == Microbiology || t == Pathology then withPatient + DeptColumns(r) else withPatient
  }

  /** The columns every query reports. */
  function RowColumns(r: MedicalReport): map<string, Value>
  {
    map[
      "id" := Int(r.id), "card_no" := Str(r.cardNo), "report_type" := Str(r.reportType),
      "report_date" := Str(r.reportDate), "report_data" := r.reportData,
      "ai_analysis" := OptValue(r.aiAnalysis),
      "created_at" := Time(r.createdAt), "updated_at" := Time(r.updatedAt)]
  }

  /** The department and diagnosis columns. */
  function DeptColumns(r: MedicalReport): map<string, Value>
  {
    map[
      "dept_code" := OptValue(r.deptCode), "dept_name" := OptValue(r.deptName),
      "diagnosis_code" := OptValue(r.diagnosisCode), "diagnosis_name" := OptValue(r.diagnosisName)]
  }

  lemma RowColumnsShape(r: MedicalReport)
    ensures var d := RowColumns(r);
      d["id"] == Int(r.id) && d["card_no"] == Str(r.cardNo) && d["report_data"] == r.reportData &&
      d["ai_analysis"] == OptValue(r.aiAnalysis) && d["created_at"] == Time(r.createdAt) &&
      "patient_no" !in d && "dept_code" !in d && "diagnosis_name" !in d
  {
  }

  lemma DeptColumnsShape(r: MedicalReport)
    ensures var d := DeptColumns(r);
      "dept_code" in d && "diagnosis_name" in d && "patient_no" !in d &&
      "id" !in d && "card_no" !in d && "report_data" !in d && "ai_analysis" !in d && "created_at" !in d
  {
  }

  lemma HistoryDictShape(t: ReportType, r: MedicalReport)
    ensures var d := HistoryDict(t, r);
      d["id"] == Int(r.id) && d["card_no"] == Str(r.cardNo) && d["report_data"] == r.reportData &&
      d["ai_analysis"] == OptValue(r.aiAnalysis) && d["created_at"] == Time(r.createdAt) &&
      ("patient_no" in d <==> t == Examination || t == Pathology) &&
      ("dept_code" in d <==> t == Microbiology || t == Pathology) &&
      ("diagnosis_name" in d <==> t == Microbiology || t == Pathology)
  {
    RowColumnsShape(r);
    DeptColumnsShape(r);
  }

  /** Every row dict carries `created_at` as a `datetime`, which the
      standard `json.dumps` rejects, and has no top-level `result_list`
      (the payload sits under `report_data`). */
  lemma RowDictNotEncodable(t: ReportType, r: MedicalReport)
    ensures !JsonEncodable(Object(HistoryDict(t, r)))
    ensures "result_list" !in HistoryDict(t, r)
  {
    HistoryDictShape(t, r);
    var d := HistoryDict(t, r);
    assert d["created_at"] == Time(r.createdAt);
  }

  /** The row-to-dict projection of a query of type `t`. */
  function RowDict(t: ReportType): MedicalReport -> map<string, Value>
  {
    (r: MedicalReport) => HistoryDict(t, r)
  }

  function HistoricalReports(reports: seq<MedicalReport>, cardNo: string, t: ReportType,
                             period: string, now: int, exclude: Option<int>): seq<map<string, Value>>
  {
    Map(RowDict(t), HistoryRows(reports, cardNo, t, period, now, exclude))
  }

  /** One of the four `get_*_reports` queries: the rows, then the `append`
      loop that turns each into its dict. */
  method GetReportsOfType(reports: seq<MedicalReport>, cardNo: string, t: ReportType,
                          period: string, now: int, exclude: Option<int>)
    returns (result: seq<map<string, Value>>)
    ensures result == HistoricalReports(reports, cardNo, t, period, now, exclude)
  {
    var rows := HistoryRows(reports, cardNo, t, period, now, exclude);
    result := MapEach(RowDict(t), rows);
  }

  /** The `ReportType` whose value is `s`, if any. */
  function ParseReportType(s: string): (t: Option<ReportType>)
    ensures t.Some? ==> TypeValue(t.value) == s
    ensures (exists u :: TypeValue(u) == s) ==> t.Some?
  {
    if s == "routine_lab" then Some(RoutineLab)
    else if s == "microbiology" then Some(Microbiology)
    else if s == "examination" then Some(Examination)
    else if s == "pathology" then Some(Pathology)
    else None
  }

  /** `get_historical_reports_by_type`: the four supported types dispatch
      to their query; any other type yields no rows. */
  function HistoricalByType(reports: seq<MedicalReport>, cardNo: string, reportType: string,
                            period: string, now: int, exclude: Option<int>): (r: seq<map<string, Value>>)
    ensures ParseReportType(reportType).None? ==> r == []
    ensures ParseReportType(reportType).Some? ==>
              r == HistoricalReports(reports, cardNo, ParseReportType(reportType).value, period, now, exclude)
  {
    match ParseReportType(reportType)
    case None => []
    case Some(t) => HistoricalReports(reports, cardNo, t, period, now, exclude)
  }

  method GetHistoricalReportsByType(reports: seq<MedicalReport>, cardNo: string, reportType: string,
                                    period: string, now: int, exclude: Option<int>)
    returns (result: seq<map<string, Value>>)
    ensures result == HistoricalByType(reports, cardNo, reportType, period, now, exclude)
    ensures (forall t :: TypeValue(t) != reportType) ==> result == []
  {
    match ParseReportType(reportType)
    case None =>
      result := [];
    case Some(t) =>
      result := GetReportsOfType(reports, cardNo, t, period, now, exclude);
  }

  // ---------------------------------------------------------------------
  // get_current_report_by_id (database_service.py:295-337)
  // ---------------------------------------------------------------------

  /** The dict of the row with that id and type; the projection is the
      pathology one, which has every column the queries read. */
  function CurrentReportById(reports: seq<MedicalReport>, reportType: string, id: int): (r: Option<map<string, Value>>)
    ensures r.Some? <==> exists x :: x in reports && x.id == id && x.reportType == reportType
    ensures r.Some? ==> exists x :: x in reports && x.id == id && x.reportType == reportType &&
                                    r.value == HistoryDict(Pathology, x)
  {
    var found := Filter(reports, (x: MedicalReport) => x.id == id && x.reportType == reportType);
    if found == [] then None
    else
      assert found[0] in found;
      Some(HistoryDict(Pathology, found[0]))
  }

  // ---------------------------------------------------------------------
  // save_comparison_analysis (database_service.py:339-400)
  // ---------------------------------------------------------------------

  /** `analysis_result.get(k)`. */
  function Field(d: map<string, Value>, k: string): Value
  {
    Get(d, k)
  }

  function ComparisonRecord(cardNo: string, patientNo: Option<string>, reportType: string,
                            currentReportId: int, currentReportDate: string, currentReportData: Value,
                            historical: seq<Value>, period: string, analysis: map<string, Value>,
                            now: int): (c: ComparisonAnalysis)
    ensures c.historicalReportsCount == |historical| && c.historicalReportsData == historical
    ensures c.langchainAnalysis == Get(analysis, "langchain_analysis")
    ensures c.analysisTokensUsed == Get(analysis, "tokens_used")
  {
    ComparisonAnalysis(
      0, cardNo, patientNo, reportType, currentReportId, currentReportDate, currentReportData,
      |historical|, historical, period,
      Field(analysis, "langchain_analysis"), Field(analysis, "key_changes"),
      Field(analysis, "trend_analysis"), Field(analysis, "risk_assessment"),
      Field(analysis, "recommendations"), Field(analysis, "analysis_model"),
      Field(analysis, "analysis_confidence"), Field(analysis, "tokens_used"), now)
  }

  /** The JSON columns of a comparison row (`current_report_data`,
      `historical_reports_data`, `key_changes`) are serialised with the
      standard `json.dumps` when `commit` flushes the row; the engine sets no
      other serialiser (singletons.py:49-60). */
  predicate JsonColumnsEncodable(c: ComparisonAnalysis)
  {
    JsonEncodable(c.currentReportData) && JsonEncodable(c.keyChanges) &&
    forall i :: 0 <= i < |c.historicalReportsData| ==> JsonEncodable(c.historicalReportsData[i])
  }

  /** Add and commit one comparison row; when the commit fails, either in
      the database or because a JSON column holds a `datetime`, roll back
      and report false. */
  method SaveComparisonAnalysis(db: Session, cardNo: string, patientNo: Option<string>,
                                reportType: string, currentReportId: int, currentReportDate: string,
                                currentReportData: Value, historical: seq<Value>, period: string,
                                analysis: map<string, Value>, now: int) returns (ok: bool)
    requires db.staged == []
    modifies db
    ensures ok <==> (db.commitError.None? &&
      JsonColumnsEncodable(ComparisonRecord(cardNo, patientNo, reportType, currentReportId, currentReportDate,
                                            currentReportData, historical, period, analysis, now)))
    ensures ok ==> (db.comparisons == old(db.comparisons) +
      [ComparisonRecord(cardNo, patientNo, reportType, currentReportId, currentReportDate,
                        currentReportData, historical, period, analysis, now).(id := old(db.nextId))])
    ensures !ok ==> db.comparisons == old(db.comparisons)
    ensures db.reports == old(db.reports) && db.patients == old(db.patients) && db.staged == []
  {
    var row := ComparisonRecord(cardNo, patientNo, reportType, currentReportId, currentReportDate,
                                currentReportData, historical, period, analysis, now);
    db.Add(ComparisonRow(row));
    assert db.staged == [ComparisonRow(row.(id := old(db.nextId)))];
    if !JsonColumnsEncodable(row) {
      // The flush inside `commit` raises TypeError; the `except` rolls back.
      db.Rollback();
      return false;
    }
    ok := db.Commit();
    if !ok {
      db.Rollback();
    }
  }

  // ---------------------------------------------------------------------
  // get_patient_all_reports_summary (database_service.py:402-446)
  // ---------------------------------------------------------------------

  datatype ReportSummary = ReportSummary(
    reportId: int, reportDate: string, reportType: string,
    keyFindings: Option<string>, createdAt: int)

  /** `ai_analysis[:100] + "..." if ai_analysis else None`. */
  function KeyFindings(ai: Option<string>): (k: Option<string>)
    ensures k.None? <==> ai.None? || ai.value == ""
    ensures k.Some? ==> |k.value| <= 103 && k.value == Take(ai.value, 100) + "..."
  {
    if ai.Some? && ai.value != "" then Some(Take(ai.value, 100) + "...") else None
  }

  /** The excerpt is a prefix of the analysis followed by "..." and keeps
      the whole analysis when it has at most 100 characters. */
  lemma KeyFindingsExcerpt(ai: string)
    requires ai != ""
    ensures var k := KeyFindings(Some(ai)).value;
      k[..|k| - 3] <= ai && k[|k| - 3..] == "..." &&
      (|ai| <= 100 ==> k == ai + "...")
  {
    var k := KeyFindings(Some(ai)).value;
    assert k[..|k| - 3] == Take(ai, 100);
  }

  function Summarize(r: MedicalReport): ReportSummary
  {
    ReportSummary(r.id, r.reportDate, r.reportType, KeyFindings(r.aiAnalysis), r.createdAt)
  }

  function CardRows(reports: seq<MedicalReport>, cardNo: string): seq<MedicalReport>
  {
    SortBy(Filter(reports, (r: MedicalReport) => r.cardNo == cardNo), NewestFirst)
  }

  /** `(page, total_count)`. PostgreSQL rejects a negative OFFSET or LIMIT;
      the exception is caught and yields `([], 0)`. */
  function SummaryPage(reports: seq<MedicalReport>, cardNo: string, limit: int, offset: int)
    : (seq<ReportSummary>, int)
  {
    if limit < 0 || offset < 0 then ([], 0)
    else
      var all := CardRows(reports, cardNo);
      (Map(Summarize, Page(all, offset, limit)), |all|)
  }

  /** `total_count` counts every row of the card whatever the page, and the
      page holds at most `limit` rows, the `offset`-th newest onwards. */
  lemma SummaryPageSpec(reports: seq<MedicalReport>, cardNo: string, limit: int, offset: int)
    requires limit >= 0 && offset >= 0
    ensures var (page, total) := SummaryPage(reports, cardNo, limit, offset);
      total == |Filter(reports, (r: MedicalReport) => r.cardNo == cardNo)| &&
      total == SummaryPage(reports, cardNo, 0, 0).1 &&
      |page| == (if offset >= total then 0 else if limit <= total - offset then limit else total - offset) &&
      forall i :: 0 <= i < |page| ==> page[i] == Summarize(CardRows(reports, cardNo)[offset + i])
  {
    SortByMembers(Filter(reports, (r: MedicalReport) => r.cardNo == cardNo), NewestFirst);
  }

  /** Consecutive pages tile the newest-first list: the page at `offset`
      followed by the page right after it is the page of both sizes. */
  lemma SummaryPagesTile(reports: seq<MedicalReport>, cardNo: string, offset: nat, l1: nat, l2: nat)
    ensures SummaryPage(reports, cardNo, l1, offset).0 + SummaryPage(reports, cardNo, l2, offset + l1).0
            == SummaryPage(reports, cardNo, l1 + l2, offset).0
  {
    var all := CardRows(reports, cardNo);
    PagesTile(all, offset, l1, l2);
    MapAppend(Summarize, Page(all, offset, l1), Page(all, offset + l1, l2));
  }

  /** The summary query with its `append` loop over the page. */
  method GetPatientAllReportsSummary(reports: seq<MedicalReport>, cardNo: string, limit: int, offset: int)
    returns (page: seq<ReportSummary>, total: int)
    ensures (page, total) == SummaryPage(reports, cardNo, limit, offset)
  {
    if limit < 0 || offset < 0 {
      return [], 0;
    }
    var all := CardRows(reports, cardNo);
    total := |all|;
    page := MapEach(Summarize, Page(all, offset, limit));
  }

  // ---------------------------------------------------------------------
  // The latest patient_info slot (get_latest_lis_result_detail and the
  // three get_latest_*_reports, database_service.py:448-492, 545-668)
  // ---------------------------------------------------------------------

  /** `slot IS NOT NULL AND slot != ''`. */
  predicate Qualifies(p: PatientInfo, cardNo: string, slot: Slot)
  {
    p.cardNo == cardNo && SlotValue(p, slot).Some? && SlotValue(p, slot).value != ""
  }

  /** `ORDER BY reg_date DESC, created_at DESC`; PostgreSQL sorts NULL as
      larger than every value, so under DESC a NULL `reg_date` comes first. */
  predicate LatestFirst(a: PatientInfo, b: PatientInfo)
  {
    match (a.regDate, b.regDate)
    case (None, None) => a.createdAt >= b.createdAt
    case (None, Some(_)) => true
    case (Some(_), None) => false
    case (Some(x), Some(y)) =>
      x.instant > y.instant || (x.instant == y.instant && a.createdAt >= b.createdAt)
  }

  lemma LatestFirstOrdering()
    ensures Ordering(LatestFirst)
  {
  }

  /** The dict a `get_latest_*` lookup returns. */
  datatype LatestRecord = LatestRecord(
    id: int,
    cardNo: string,
    patientName: string,
    regDate: Option<DateTime>,
    regDateStr: string,
    slot: Slot,
    content: string,
    createdAt: int,
    updatedAt: int)

  function ToLatestRecord(p: PatientInfo, slot: Slot): (r: LatestRecord)
    requires SlotValue(p, slot).Some?
    ensures r.content == Strip(SlotValue(p, slot).value)
    ensures r.regDateStr == "" <==> p.regDate.None? || p.regDate.value.text == ""
  {
    LatestRecord(
      p.id, p.cardNo,
      if p.patientName.Some? then p.patientName.value else "",
      p.regDate,
      if p.regDate.Some? then p.regDate.value.text else "",
      slot, Strip(SlotValue(p, slot).value), p.createdAt, p.updatedAt)
  }

  function LatestCandidates(patients: seq<PatientInfo>, cardNo: string, slot: Slot): (c: seq<PatientInfo>)
    ensures forall p :: p in c <==> p in patients && Qualifies(p, cardNo, slot)
  {
    SortByMembers(Filter(patients, (p: PatientInfo) => Qualifies(p, cardNo, slot)), LatestFirst);
    SortBy(Filter(patients, (p: PatientInfo) => Qualifies(p, cardNo, slot)), LatestFirst)
  }

  /** A `get_latest_*` lookup, read as the table the queries assume: the
      first qualifying row by (reg_date desc, created_at desc), its slot
      stripped. */
  function LatestSlot(patients: seq<PatientInfo>, cardNo: string, slot: Slot): Option<LatestRecord>
  {
    var c := LatestCandidates(patients, cardNo, slot);
    if c == [] then None else assert c[0] in c; Some(ToLatestRecord(c[0], slot))
  }

  /** None exactly when no row of the card has a non-empty slot; otherwise
      the record of a qualifying row that comes first in the order. */
  lemma LatestSlotSpec(patients: seq<PatientInfo>, cardNo: string, slot: Slot)
    ensures LatestSlot(patients, cardNo, slot).None? <==>
            forall p :: p in patients ==> !Qualifies(p, cardNo, slot)
    ensures LatestSlot(patients, cardNo, slot).Some? ==>
      exists p :: p in patients && Qualifies(p, cardNo, slot) &&
        LatestSlot(patients, cardNo, slot).value == ToLatestRecord(p, slot) &&
        forall q :: q in patients && Qualifies(q, cardNo, slot) ==> LatestFirst(p, q)
  {
    var matching := Filter(patients, (p: PatientInfo) => Qualifies(p, cardNo, slot));
    SortByMembers(matching, LatestFirst);
    var c := LatestCandidates(patients, cardNo, slot);
    if c != [] {
      LatestFirstOrdering();
      SortByHeadFirst(matching, LatestFirst);
      assert c[0] in c;
    }
  }

  /** The lookup as the code runs against the declared `PatientInfo`: a
      column the class lacks raises AttributeError while the query is built,
      which the `except` turns into None. */
  function LatestSlotAsWritten(patients: seq<PatientInfo>, cardNo: string, slot: Slot): Option<LatestRecord>
  {
    if Declared(slot) then LatestSlot(patients, cardNo, slot) else None
  }

  /** As written, the pathology, PACS and microbiology lookups find nothing
      even for a patient whose row holds such a report. */
  lemma LatestAsWrittenMissesReport(patients: seq<PatientInfo>, cardNo: string, slot: Slot, p: PatientInfo)
    requires !Declared(slot) && p in patients && Qualifies(p, cardNo, slot)
    ensures LatestSlot(patients, cardNo, slot).Some?
    ensures LatestSlotAsWritten(patients, cardNo, slot).None?
  {
    LatestSlotSpec(patients, cardNo, slot);
  }

  /** Only the lab lookup behaves as intended. */
  lemma LatestAsWrittenAgreesOnLab(patients: seq<PatientInfo>, cardNo: string, slot: Slot)
    ensures LatestSlotAsWritten(patients, cardNo, slot) ==
            if slot == LisResultDetail then LatestSlot(patients, cardNo, slot) else None
  {
  }

  // ---------------------------------------------------------------------
  // get_patient_info_history (database_service.py:494-543)
  // ---------------------------------------------------------------------

  /** `lis_result_detail IS NOT NULL` only: an empty string is admitted. */
  predicate InInfoWindow(p: PatientInfo, cardNo: string, cutoff: int)
  {
    p.cardNo == cardNo && p.createdAt >= cutoff && p.lisResultDetail.Some?
  }

  function InfoRows(patients: seq<PatientInfo>, cardNo: string, period: string, now: int): seq<PatientInfo>
  {
    var cutoff := DateFilter(period, now);
    SortBy(Filter(patients, (p: PatientInfo) => InInfoWindow(p, cardNo, cutoff)), LatestFirst)
  }

  function DateValue(d: Option<DateTime>): Value
  {
    if d.Some? then Time(d.value.instant) else Null
  }

  function InfoDict(p: PatientInfo): map<string, Value>
  {
    map[
      "id" := Int(p.id), "card_no" := Str(p.cardNo), "patient_name" := OptValue(p.patientName),
      "reg_date" := DateValue(p.regDate), "dept_name" := OptValue(p.deptName),
      "lis_result_detail" := OptValue(p.lisResultDetail), "ai_report" := OptValue(p.aiReport),
      "pathology_reports" := OptValue(p.pathologyReports), "pacs_reports" := OptValue(p.pacsReports),
      "microbiological_reports" := OptValue(p.microbiologicalReports),
      "created_at" := Time(p.createdAt), "updated_at" := Time(p.updatedAt)]
  }

  /** The history read as the table the query assumes. */
  function PatientInfoHistory(patients: seq<PatientInfo>, cardNo: string, period: string, now: int)
    : seq<map<string, Value>>
  {
    Map(InfoDict, InfoRows(patients, cardNo, period, now))
  }

  /** As written, building the first dict reads `record.pathology_reports`,
      which the declared class lacks; the AttributeError is caught and the
      result is empty whatever the table holds. */
  function PatientInfoHistoryAsWritten(patients: seq<PatientInfo>, cardNo: string, period: string, now: int)
    : seq<map<string, Value>>
  {
    []
  }

  /** The history keeps exactly the card's rows in the window whose lab
      detail is non-null, even an empty one that `LatestSlot` skips, and
      orders them like the latest lookup. */
  lemma PatientInfoHistorySpec(patients: seq<PatientInfo>, cardNo: string, period: string, now: int)
    ensures var rows := InfoRows(patients, cardNo, period, now);
      (forall p :: p in rows <==> p in patients && InInfoWindow(p, cardNo, DateFilter(period, now))) &&
      Sorted(rows, LatestFirst) &&
      |PatientInfoHistory(patients, cardNo, period, now)| == |rows|
  {
    var cutoff := DateFilter(period, now);
    var matching := Filter(patients, (p: PatientInfo) => InInfoWindow(p, cardNo, cutoff));
    SortByMembers(matching, LatestFirst);
    LatestFirstOrdering();
    SortBySorted(matching, LatestFirst);
  }

  /** A row whose lab detail is "" appears in the history but is never the
      latest lab result; as written the history is empty all the same. */
  lemma EmptyLabDetailInHistoryOnly(now: int)
    requires now >= DatetimeMin
    ensures var p := PatientInfo(7, "C002", None, None, None, Some(""), None, None, None, None, now, now);
      |PatientInfoHistory([p], "C002", "all", now)| == 1 &&
      LatestSlot([p], "C002", LisResultDetail).None? &&
      PatientInfoHistoryAsWritten([p], "C002", "all", now) == []
  {
    var p := PatientInfo(7, "C002", None, None, None, Some(""), None, None, None, None, now, now);
    PatientInfoHistorySpec([p], "C002", "all", now);
    LatestSlotSpec([p], "C002", LisResultDetail);
    assert p in InfoRows([p], "C002", "all", now);
  }
}
