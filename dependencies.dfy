/** The dependency-injection helpers of the service: request validation of the
    patient card number and the process-wide service container that caches
    the database service and the report analyser. */
module Dependencies {
  import opened Common
  import Models
  import ReportService
  import Exceptions

  /** `validate_request_data`: a missing, empty or whitespace-only card number
      is a 400 "患者卡号不能为空"; a stripped number shorter than three
      characters is a 400 "患者卡号格式错误"; anything else is returned
      stripped. */
  function ValidateRequestData(cardNo: Option<string>): (r: Result<string, Exceptions.HttpError>)
    ensures r.Ok? <==> cardNo.Some? && |Strip(cardNo.value)| >= 3
    ensures r.Ok? ==> r.value == Strip(cardNo.value) && |r.value| >= 3
    ensures r.Err? ==> r.error.statusCode == 400
    ensures r.Err? && (cardNo.None? || Strip(cardNo.value) == "") ==>
      r.error.detail == "患者卡号不能为空"
    ensures r.Err? && cardNo.Some? && Strip(cardNo.value) != "" ==>
      r.error.detail == "患者卡号格式错误"
  {
    if cardNo.None? || cardNo.value == "" || Strip(cardNo.value) == "" then
      Err(Exceptions.HttpError(400, "患者卡号不能为空"))
    else
      var stripped := Strip(cardNo.value);
      if |stripped| < 3 then Err(Exceptions.HttpError(400, "患者卡号格式错误"))
      else Ok(stripped)
  }

  /** A card number whose stripped form is long enough is accepted as that
      stripped form. */
  lemma AcceptsStripped(cardNo: string)
    requires |Strip(cardNo)| >= 3
    ensures ValidateRequestData(Some(cardNo)) == Ok(Strip(cardNo))
  {
  }

  /** An accepted card number is already in its validated form: validating it
      again gives it back unchanged. */
  lemma ValidationIdempotent(cardNo: Option<string>)
    requires ValidateRequestData(cardNo).Ok?
    ensures ValidateRequestData(Some(ValidateRequestData(cardNo).value)) == ValidateRequestData(cardNo)
  {
    StripIdempotent(cardNo.value);
    AcceptsStripped(cardNo.value);
    AcceptsStripped(Strip(cardNo.value));
  }

  /** A whitespace-only card number is refused as empty, whatever its length. */
  lemma BlankCardRejected(cardNo: string)
    requires forall i :: 0 <= i < |cardNo| ==> IsSpace(cardNo[i])
    ensures ValidateRequestData(Some(cardNo)) == Err(Exceptions.HttpError(400, "患者卡号不能为空"))
  {
    StripAllSpace(cardNo);
  }

  /** A `DatabaseService` instance: it only remembers the session it was
      built on. */
  class DatabaseServiceInstance {
    const db: Models.Session

    constructor (db: Models.Session)
      ensures this.db == db
    {
      this.db := db;
    }
  }

  /** `ServiceContainer`: caches one database service (replaced whenever a
      different session is passed) and one analyser (fetched once). */
  class ServiceContainer {
    var dbService: DatabaseServiceInstance?
    var analyzer: ReportService.Analyzer?

    constructor ()
      ensures dbService == null && analyzer == null
    {
      dbService := null;
      analyzer := null;
    }

    /** `get_db_service`: sessions are compared by identity. */
    method GetDbService(db: Models.Session) returns (s: DatabaseServiceInstance)
      modifies this
      ensures s.db == db && dbService == s
      ensures old(dbService) != null && old(dbService).db == db ==> s == old(dbService)
      ensures old(dbService) == null || old(dbService).db != db ==> fresh(s)
      ensures analyzer == old(analyzer)
    {
      if dbService == null || dbService.db != db {
        dbService := new DatabaseServiceInstance(db);
      }
      s := dbService;
    }

    /** `get_analyzer`: `shared` is the analyser `get_medical_analyzer` would
        hand out; it is fetched only while none is cached. */
    method GetAnalyzer(shared: ReportService.Analyzer) returns (a: ReportService.Analyzer)
      modifies this
      ensures old(analyzer) == null ==> a == shared
      ensures old(analyzer) != null ==> a == old(analyzer)
      ensures analyzer == a && dbService == old(dbService)
    {
      if analyzer == null {
        analyzer := shared;
      }
      a := analyzer;
    }

    /** `get_services`: the service bound to `db` and the cached analyser. */
    method GetServices(db: Models.Session, shared: ReportService.Analyzer)
      returns (s: DatabaseServiceInstance, a: ReportService.Analyzer)
      modifies this
      ensures s.db == db && dbService == s && analyzer == a
      ensures old(analyzer) != null ==> a == old(analyzer)
      ensures old(analyzer) == null ==> a == shared
      ensures old(dbService) != null && old(dbService).db == db ==> s == old(dbService)
    {
      s := GetDbService(db);
      a := GetAnalyzer(shared);
    }
  }

  /** Two successive requests get the same analyser, even when the factory
      would hand out a different one the second time. */
  method AnalyzerFetchedOnce(c: ServiceContainer, first: ReportService.Analyzer, second: ReportService.Analyzer)
    returns (a1: ReportService.Analyzer, a2: ReportService.Analyzer)
    modifies c
    ensures a1 == a2
    ensures old(c.analyzer) == null ==> a1 == first
  {
    a1 := c.GetAnalyzer(first);
    a2 := c.GetAnalyzer(second);
  }
}
