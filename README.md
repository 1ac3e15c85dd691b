# Medical report processing service — Dafny model

This project models the core of a medical report analysis service. The
service takes four kinds of hospital reports:

- routine lab results;
- microbiology cultures;
- examinations;
- pathology.

For each report it asks a language model for an analysis, caches the answer,
stores the report and answers with an envelope. It can also compare a stored
report with the patient's earlier reports.

The model covers:

- the bounded time-to-live cache of analyses and the report pipeline
  (validate, look up history, consult the cache, analyse, cache, persist,
  answer);
- the database queries, read as filters, orderings and slices over tables
  held as sequences of rows;
- the comparison analyser's pure string processing: template choice, report
  rendering, keyword tags, confidence, and splitting the reply into trend,
  risk and advice sections;
- the prompt `analyze_with_llm` builds, the report-date defaulting and
  response mapping of the four report endpoints, and the `/compare-reports`
  endpoint;
- the two error hierarchies and their envelope builders;
- request validation, the service container and the configuration logic;
- the database-free demo service and the self-contained parts of the
  workflow examples: the output parser, the two tools and the age router.

Time is an integer parameter (seconds). The language model, the hash behind
the cache key, `str()` and the text of `json.dumps` are function parameters;
`json.dumps` raising on a `datetime` is modelled.
The database session is a class holding the tables as sequences, with a
staging list for `add`, `commit` and `rollback`.

Files:

- `common.dfy`: values, options and results, plus Python string helpers
  (`split`, `join`, `strip`, `in`, `int()`, `str()` of an integer).
- `seq_query.dfy`: filter, insertion sort, slice and map over sequences.
- `models.dfy`: the tables and the session.
- `cache.dfy`, `report_service.dfy`, `database_service.dfy`,
  `langchain_service.dfy`, `api.dfy`, `exceptions.dfy`, `error_handlers.dfy`,
  `dependencies.dfy`, `config.dfy`, `simple_api.dfy`, `workflow_examples.dfy`:
  one module per source file.

## Model

| member | source | states |
|---|---|---|
| LlmCache.KeyIgnoresHistoryContent | report_service.py:53-67 | two historical reports with the same `report_date` give the same cache key, whatever else they hold |
| LlmCache.KeyDistinguishes | report_service.py:53-67 | equal keys mean equal type, equal analysis data, the same presence of history and the same history date |
| LlmCache.Lookup | report_service.py:69-84 | `get` answers an entry exactly when the key is present and its age is below the TTL, and then answers its stored text |
| LlmCache.StoredWithinCapacity | report_service.py:86-98 | with `max_size >= 1`, a `set` never takes the cache past `max_size` entries |
| LlmCache.StoredEvictsOneOldest | report_service.py:92-95 | a `set` on a full cache removes exactly one entry of least timestamp, adds the new key, and leaves every other entry unchanged |
| LlmCache.GetAfterSet | report_service.py:69-98 | a `get` with the same arguments as a `set`, before the TTL runs out, returns exactly the stored text |
| LlmCache.PrunedLookup | report_service.py:100-109 | clearing expired entries never changes what `get` answers at that moment |
| LlmCache.LLMCache.constructor | report_service.py:48-51 | the cache starts empty, with the given size and the TTL in seconds |
| LlmCache.LLMCache.Get | report_service.py:69-84 | answers `Lookup` on the old cache; a miss deletes the key (an expired entry), and a hit leaves the cache unchanged |
| LlmCache.LLMCache.OldestKey | report_service.py:93 | the key `min(..., key=timestamp)` picks holds an entry of least timestamp |
| LlmCache.LLMCache.Set | report_service.py:86-98 | fails exactly when the cache is full and empty (`max_size <= 0`, so `min` of nothing raises); otherwise the new cache is the evict-then-store result |
| LlmCache.LLMCache.ClearExpired | report_service.py:100-109 | the new cache keeps exactly the entries whose age is below the TTL, unchanged |
| ReportService.ConfigRules | report_service.py:122-147 | the stored type is the enum value; the analysis type is `routineLab` for routine lab and the enum value otherwise; the required fields start with `cardNo`, `reportDate` |
| ReportService.FirstMissing | report_service.py:156-158 | none exactly when every required field is a key of the data; otherwise a required field that is absent and preceded only by present ones |
| ReportService.FirstMissingKeysOnly | report_service.py:156-158 | validation depends only on which keys are present, never on their values |
| ReportService.ValidateReportData | report_service.py:149-172 | `(True, None)` exactly when no required field is missing; otherwise `(False, "缺少必需字段: f")` for the first missing field `f` |
| ReportService.FirstMissingAt | report_service.py:156-158 | the field the loop stops at is the first missing one |
| ReportService.ValidatedIsIndexable | report_service.py:174-219 | a validated report has every key `prepare_analysis_data` reads with `data[...]` |
| ReportService.AnalysisDataIdentity | report_service.py:176-179 | `cardNo` and `reportDate` always come from the record's own fields |
| ReportService.AnalysisDataOptional | report_service.py:184-217 | each optional key of the type is present exactly when the request has it, with the request's value |
| ReportService.AnalysisDataPatientNo | report_service.py:200-217 | `patientNo` appears only for examination and pathology reports with a truthy patient number; `deptCode` only for microbiology |
| ReportService.AnalysisDataRoutineLab | report_service.py:181-182 | a routine lab report yields exactly `{cardNo, reportDate, resultList}` |
| ReportService.CopyPresentKeys | report_service.py:195-198 | the key-copy loop copies exactly the listed keys that the source has |
| ReportService.PrepareAnalysisData | report_service.py:174-219 | the dict built by `update` and the copy loops is the analysis data above |
| ReportService.DatabaseDataFromRequest | report_service.py:221-263 | the stored JSON is the lab result list itself, or for other types a dict of the request's fields under snake_case keys |
| ReportService.HistoryDict | report_service.py:315-324 | the history dict carries the stripped slot content and the history date |
| ReportService.NoQualifyingRowNoHistory | report_service.py:287-325 | no row of the card with a non-empty slot means no history (through the intended lookup of the first Findings row; as written only a routine lab report has history, `ReportService.HistoryAsWritten`) |
| ReportService.HistoryFromLatestRow | report_service.py:287-325 | a history's content is the stripped slot of a qualifying row that comes first in the latest-first order (through the intended lookup of the first Findings row; as written only a routine lab report has history, `ReportService.HistoryAsWritten`) |
| ReportService.HistoryAsWritten | report_service.py:287-325 | as written, a microbiology, examination or pathology report never finds history and its cache key records none; a routine lab report finds the intended history |
| ReportService.HistoryDateKeyed | report_service.py:309-333 | the cache key of a request with history records the history's date |
| ReportService.BlankSlotGivesNoHistory | report_service.py:309 | a slot holding only whitespace passes the `!= ''` filter but gives no history |
| ReportService.Analyzer.constructor | report_service.py:275-276 | the analyser answers by the given function and has no calls yet |
| ReportService.Analyzer.Analyze | report_service.py:340 | answers by its function and records the request |
| ReportService.AnalysisOutcome | report_service.py:327-345 | a success is the usable cached text or the analyser's answer; a miss with an answer fails only with the error of `min()` over an empty cache |
| ReportService.ReportProcessingService.constructor | report_service.py:118-119 | a 200-entry cache with a 12-hour TTL, empty |
| ReportService.ReportProcessingService.CleanupCache | report_service.py:383-385 | the cache keeps exactly its live entries |
| ReportService.ReportProcessingService.ObtainAnalysis | report_service.py:327-345 | a usable hit skips the analyser; on a miss the analyser is called once and its answer, failure text included, is stored |
| ReportService.ReportProcessingService.ProcessReport | report_service.py:275-381 | a failed validation answers through the error handler and touches nothing; otherwise the analyser sees the request built from the report and its history (through the intended lookup of the first Findings row; as written only a routine lab report has history, `ReportService.HistoryAsWritten`), and exactly one report row is stored with the success envelope, or nothing is stored and the handler answers `处理失败: ...`; on a validated report the new cache is stated too: a miss whose answer is Ok (failure texts included) leaves that answer stored under the request's key, also when the commit then fails, and otherwise the cache is what `get` left |
| ReportService.ReportProcessingService.RunPipeline | report_service.py:284-381 | on a validated report: the analyser is called only on a cache miss; an analysis or commit failure answers through the error handler and stores nothing; otherwise exactly one report row with the analysis is appended and the `200` envelope is returned; the history is the intended one (through the intended lookup of the first Findings row; as written only a routine lab report has history, `ReportService.HistoryAsWritten`); the new cache holds the analyser's Ok answer after a miss, whatever the commit does, and is otherwise what `get` left |
| ReportService.StoreReport | report_service.py:347-366 | `add` then `commit`: the report row is appended with the next id exactly when the commit succeeds, a failed commit is rolled back, and patients and comparisons are untouched |
| ReportService.RepeatServedFromCache | report_service.py:327-345 | once an answer is cached, the same request before the TTL runs out is answered from the cache, without the analyser (through the intended lookup of the first Findings row; as written only a routine lab report has history, `ReportService.HistoryAsWritten`) |
| Models.ReportsOf | models.py:13-40 | only report rows are counted as reports, never more than the rows staged |
| Models.Session.constructor | database_service.py:23-24 | the session holds the given tables and stages nothing |
| Models.Session.Add | database_service.py:391 | `add` stages one row with the next id and leaves the tables unchanged |
| Models.Session.Commit | database_service.py:392 | a commit succeeds exactly when no commit error is set, and then appends the staged rows to their tables; a failure changes nothing |
| Models.Session.Rollback | database_service.py:399 | `rollback` drops the staged rows and leaves the tables unchanged |
| DatabaseService.DateFilterWindows | database_service.py:26-38 | an unknown period falls back to six months; the windows nest (`all` before `1year` before `6months`); every cutoff lies before now |
| DatabaseService.NewestFirstOrdering | database_service.py:69 | `created_at` descending is a total preorder |
| DatabaseService.HistoryRowsSpec | database_service.py:57-69 | the rows are exactly the card's rows of that type inside the window, minus a truthy excluded id, each as often as stored (multiset equal to the filtered table), newest first |
| DatabaseService.ExcludeFalsyIgnored | database_service.py:66-67 | excluding id None or 0 gives the same rows |
| DatabaseService.HistoryDictShape | database_service.py:72-84 | each row dict carries the row's id, card, type, date and data; department and diagnosis keys appear for the non-lab types only |
| DatabaseService.GetReportsOfType | database_service.py:40-91 | the `append` loop yields one dict per qualifying row, in order |
| DatabaseService.ParseReportType | database_service.py:281-288 | a type string names a query exactly when it is one of the four enum values |
| DatabaseService.HistoricalByType | database_service.py:262-293 | the four supported types dispatch to their query; any other type gives `[]` |
| DatabaseService.GetHistoricalReportsByType | database_service.py:262-293 | the dispatch returns the query's rows, and `[]` for an unsupported type |
| DatabaseService.CurrentReportById | database_service.py:295-337 | present exactly when a row has that id and type, and then it is that row's dict |
| DatabaseService.ComparisonRecord | database_service.py:370-389 | the record stores the number of historical reports, the reports themselves, and the analysis fields taken from the result |
| DatabaseService.SaveComparisonAnalysis | database_service.py:339-400 | returns True exactly when the JSON columns (current report, key changes, history) hold no `datetime` and the commit succeeds, and then exactly one comparison row is appended; otherwise it rolls back and nothing is stored |
| DatabaseService.RowDictNotEncodable | database_service.py:72-84 | the dict built from a report row carries `created_at` as a `datetime`, so it cannot be JSON-encoded, and it has no top-level `result_list` |
| DatabaseService.KeyFindings | database_service.py:438 | None exactly when the analysis is None or empty; otherwise its first 100 characters followed by `...` |
| DatabaseService.KeyFindingsExcerpt | database_service.py:438 | the excerpt is a prefix of the analysis plus `...`, and keeps a short analysis whole |
| DatabaseService.SummaryPageSpec | database_service.py:421-442 | the total counts every row of the card, whatever the page; the page holds exactly `min(limit, total - offset)` rows (none past the end), the `offset`-th newest onwards |
| DatabaseService.SummaryPagesTile | database_service.py:421-442 | consecutive pages concatenate to the page of both sizes |
| DatabaseService.GetPatientAllReportsSummary | database_service.py:402-446 | the `append` loop gives the page and total above, and `([], 0)` for a negative limit or offset |
| DatabaseService.LatestFirstOrdering | database_service.py:459-466 | `reg_date` then `created_at` descending, with NULL first, is a total preorder |
| DatabaseService.ToLatestRecord | database_service.py:467-488 | the record's content is the stripped slot, and `reg_date_str` is empty exactly when the date is missing or empty |
| DatabaseService.LatestCandidates | database_service.py:459-466 | the candidates are exactly the card's rows whose slot is non-null and non-empty |
| DatabaseService.LatestSlotSpec | database_service.py:448-492 | None exactly when no row qualifies; otherwise the record of a qualifying row that comes first in the order |
| DatabaseService.LatestAsWrittenMissesReport | database_service.py:545-668 | as written, the pathology, PACS and microbiology lookups find nothing even when a row holds such a report |
| DatabaseService.LatestAsWrittenAgreesOnLab | database_service.py:448-492 | as written, only the lab lookup behaves as intended |
| DatabaseService.PatientInfoHistorySpec | database_service.py:494-543 | the history keeps exactly the card's rows in the window whose lab detail is non-null, latest first |
| DatabaseService.EmptyLabDetailInHistoryOnly | database_service.py:510-517 | a row with an empty lab detail is in the history but is never the latest lab result; as written the history is empty all the same |
| LangchainService.TemplateForOwnType | langchain_service.py:199-207 | each comparison template is the one chosen for its own type |
| LangchainService.TemplateFallback | langchain_service.py:207 | a type with no template gets the routine lab template |
| LangchainService.Dicts | langchain_service.py:218-219 | the items kept for rendering are the dict items, never more than given |
| LangchainService.LabLinesSkipNonDicts | langchain_service.py:217-227 | items that are not dicts contribute nothing to the lab lines |
| LangchainService.KeyedLinesListedKeysOnly | langchain_service.py:230-259 | only the listed keys matter: payloads that agree on them render alike |
| LangchainService.KeyedLinesNoneListed | langchain_service.py:230-259 | with none of the listed keys, the section after the header is empty |
| LangchainService.FormattedReportFallback | langchain_service.py:261-267 | unknown types, and a routine lab payload without `result_list`, render as the JSON dump exactly when the payload holds no `datetime`; otherwise the dump raises the `datetime` TypeError, and the retry in the `except` raises it again |
| LangchainService.FormattedReportOwnTypes | langchain_service.py:209-260 | the per-type renderings of microbiology, examination, pathology and a routine lab payload with `result_list` never raise |
| LangchainService.FormatReportData | langchain_service.py:209-267 | the `+=` loop renders the per-type text: header, one line per dict item or present key, the reference only when non-empty; the JSON fallback and its retry raise on a `datetime` |
| LangchainService.KeyChangeTags | langchain_service.py:269-290 | `significant_changes` stays empty; each tag is present exactly when its keyword group occurs, at most once |
| LangchainService.ExtractKeyChanges | langchain_service.py:269-300 | the `append` steps give the tags above |
| LangchainService.ConfidenceMonotone | langchain_service.py:302-313 | more history or a longer text never lowers the confidence |
| LangchainService.PickedPartition | langchain_service.py:406-412 | every section lands in exactly one of the three buckets or is dropped |
| LangchainService.BucketPriority | langchain_service.py:406-412 | a trend word wins over risk and advice words, and a risk word over advice words |
| LangchainService.PickedSnoc | langchain_service.py:406-412 | adding a section at the end adds it to its own bucket only |
| LangchainService.SplitSections | langchain_service.py:400-412 | the loop's three strings are the glued sections of each bucket, in order |
| LangchainService.StrippedOr | langchain_service.py:425-427 | `strip() or default` is never empty when the default is not |
| LangchainService.PostProcessedDefaults | langchain_service.py:422-431 | the result keeps the full text; no section is empty; with no trend, risk or advice section that field is its fixed default |
| LangchainService.CompareOutcomeErrors | langchain_service.py:433-448 | only a `LangChainError` escapes; any other failure gives the fallback with confidence `无`, zero tokens, no key changes and a text naming the failure |
| LangchainService.HistoryTextHasEveryReport | langchain_service.py:347-351 | the history text fails exactly when some historical report fails to render; otherwise every historical report appears in the chain input, numbered by its position |
| LangchainService.HistoryTextFailsOnward | langchain_service.py:347-351 | once a report fails to render, the whole history fails with that error |
| LangchainService.FormatHistory | langchain_service.py:347-351 | the loop renders every historical report under its number, and stops with the error of the first report that fails to render |
| LangchainService.PostProcess | langchain_service.py:393-431 | the steps after a reply give the tags, the confidence and the three sections |
| LangchainService.CompareReports | langchain_service.py:315-448 | the chain sees the rendered inputs, and the result is the post-processed reply, the fallback (also when rendering a report raises), or the re-raised `LangChainError` |
| LangchainService.UnencodableCurrentFallsBack | langchain_service.py:331-448 | a routine lab current report without top-level `result_list` that holds a `datetime` never reaches the chain: the result is the fallback, whose text names the `datetime` TypeError |
| Api.PersonaByType | api.py:314-397 | the four analysis types have their own expert; any other type gets the general one, whose heading names the type |
| Api.PromptFrame | api.py:312-397 | the prompt opens with the expert and the analysis context, names the report kind, and ends with the closing line |
| Api.PromptCarriesReports | api.py:315-316 | the current report is always in the prompt; the `历史报告：` block is in it exactly when a history is given |
| Api.NoteInInstructions | api.py:328 | the note, when the expert has one, sits in the instructions |
| Api.PromptNote | api.py:328-346 | lab and microbiology prompts carry the note for their case: trends with history, a first-report remark without |
| Api.LlmAnalysisNeverFails | api.py:420-422 | with `analyze_with_llm` as the analyser, a failed model call becomes the text `大模型分析失败: ...`, and that text is what the pipeline caches |
| Api.LegacyErrorResponse | api.py:432-439 | code `500`, the card number, the message as `error`, and the time, and no other key |
| Api.TimestampFields | api.py:610 | the stamp is fourteen digits, and each clock field reads back from its place |
| Api.ReportDateDefaulting | api.py:610 | the date is the given one exactly when it is non-empty, and otherwise a fourteen-digit stamp |
| Api.RoutineLabReport | api.py:610-622 | the report built for `/routine-lab` carries the card, the defaulted date and the result list |
| Api.MicrobiologyReport | api.py:651-676 | the report built for `/microbiology` carries the card, the date, the culture fields, the department and the diagnosis |
| Api.ExaminationReport | api.py:702-723 | the report built for `/examination` carries the card, the date, the findings and the patient number |
| Api.PathologyReport | api.py:749-778 | the report built for `/pathology`, given a date field, carries the card, the date, the findings, the patient number and the department |
| Api.PathologyRequestAlwaysRaises | api.py:749 | as written, no pathology request gets past the date defaulting |
| Api.ResponseOfEnvelopes | api.py:631-636 | a success envelope answers code 200 with the analysis; an error envelope answers its code with the error text as `ai_analysis` |
| Api.CreateReport | api.py:626-636 | the endpoint answers 200 exactly when the report is stored, always echoes the card number, and on success `ai_analysis` is the cached or freshly built analysis and exactly that report row is appended; a failed commit answers the failure text and stores nothing; on a miss the analysis is cached under the request's key even when the commit fails, and on a usable hit the cache is what `get` left |
| Api.CreateRoutineLabReport | api.py:597-636 | `/routine-lab` answers 200 exactly when the commit succeeds, with `ai_analysis` the cached or freshly built analysis of the defaulted report and exactly that report row appended; otherwise the failure text |
| Api.CreateMicrobiologyReport | api.py:638-687 | `/microbiology` answers 200 exactly when the commit succeeds, with `ai_analysis` the cached or freshly built analysis of the defaulted report and exactly that report row appended; otherwise the failure text |
| Api.CreateExaminationReport | api.py:689-734 | `/examination` answers 200 exactly when the commit succeeds, with `ai_analysis` the cached or freshly built analysis of the defaulted report and exactly that report row appended; otherwise the failure text |
| Api.CreatePathologyReport | api.py:736-789 | `/pathology` answers 200 exactly when the commit succeeds, with `ai_analysis` the cached or freshly built analysis of the defaulted report and exactly that report row appended; otherwise the failure text |
| Api.ComparisonAnswerCases | api.py:442-557 | code 200 exactly when the current report exists and either there is no history or the analysis came back; a count is reported only for an analysed history and is its size; every other answer is a 500 |
| Api.ChainFailureAnswers | api.py:492-543 | a chain failure other than a `LangChainError` (such as the `datetime` TypeError) still answers 200 with a text naming it; a `LangChainError` answers 500 with its message |
| Api.SaveAnalysed | api.py:500-515 | an analysed comparison appends its row exactly when its JSON columns hold no `datetime` and the commit succeeds, and nothing otherwise |
| Api.SavedRowNeverEncodes | api.py:500-515 | as written every comparison row sent to the store carries the current report's `datetime`, so none is ever stored |
| Api.CompareReportsEndpoint | api.py:442-557 | the endpoint answers as above and never adds a comparison row (the row's JSON columns always hold a `datetime`); no other table changes |
| Api.RoutineLabComparisonFallsBack | api.py:442-557 | a routine lab comparison with history answers 200 with the fallback texts, the analysis naming the `datetime` TypeError |
| Exceptions.NewMedicalReportError | exceptions.py:17-22 | the base error keeps its message and card, with the code `UNKNOWN_ERROR` |
| Exceptions.SubclassCodesDistinct | exceptions.py:25-54 | the subclasses' codes are pairwise distinct and differ from `UNKNOWN_ERROR` |
| Exceptions.CreateErrorResponse | exceptions.py:61-100 | code `500`, the card, the support message; the error and its code chosen by the first matching class |
| Exceptions.CreateHttpException | exceptions.py:103-127 | the status is kept; the detail is the error's message, the fixed text for a `ValueError`, or the default |
| Exceptions.HandleDatabaseError | exceptions.py:130-144 | a database error naming the operation and the cause, for the card |
| Exceptions.HandleLlmError | exceptions.py:147-161 | an analysis error naming the model and the cause, for the card |
| Exceptions.HandleLangchainError | exceptions.py:164-178 | a chain error naming the chain and the cause, for the card |
| Exceptions.HandledErrorResponse | exceptions.py:182-199 | the envelope of a handled chain error carries the `LANGCHAIN_ERROR` code and the handler's message |
| ErrorHandlers.OneDetail | error_handlers.py:30-31 | a one-key details dict when the argument is truthy, otherwise empty |
| ErrorHandlers.NewValidationError | error_handlers.py:25-31 | code `400`, details naming the field when given |
| ErrorHandlers.NewDatabaseError | error_handlers.py:34-40 | code `500`, details naming the operation when given |
| ErrorHandlers.NewLlmError | error_handlers.py:43-49 | code `503`, details naming the model when given |
| ErrorHandlers.CreateErrorResponse | error_handlers.py:56-122 | every branch echoes the card and uses the context or its own default; details only for the exception hierarchy; the code and error by branch |
| ErrorHandlers.HttpCodeRoundTrip | error_handlers.py:105-112 | the code of an HTTP envelope reads back as the exception's status |
| ErrorHandlers.EnvelopeCodes | error_handlers.py:73-132 | apart from an HTTP status or an exception's own code, every code is `400`, `500` or `503` |
| ErrorHandlers.ValidationErrorResponse | error_handlers.py:153-156 | code `400`, message `数据验证失败`, the field in the details |
| ErrorHandlers.DatabaseErrorResponse | error_handlers.py:159-163 | code `500` with `operation失败`; the SQL error is only logged |
| ErrorHandlers.LlmErrorResponse | error_handlers.py:166-170 | code `503` with `AI分析服务暂时不可用`; the cause is only logged |
| ErrorHandlers.ProcessingErrorResponse | error_handlers.py:173-175 | the string branch: code `500`, the message, the context or `操作失败` |
| Dependencies.ValidateRequestData | dependencies.py:154-175 | accepted exactly when the stripped card has at least three characters, and then returned stripped; otherwise a 400 saying empty or malformed |
| Dependencies.AcceptsStripped | dependencies.py:171-175 | a long enough card is accepted as its stripped form |
| Dependencies.ValidationIdempotent | dependencies.py:171-175 | validating an accepted card number again gives it back unchanged |
| Dependencies.BlankCardRejected | dependencies.py:167-168 | a whitespace-only card is refused as empty, whatever its length |
| Dependencies.DatabaseServiceInstance.constructor | dependencies.py:82-83 | the service is bound to the given session |
| Dependencies.ServiceContainer.constructor | dependencies.py:73-78 | nothing is cached yet |
| Dependencies.ServiceContainer.GetDbService | dependencies.py:80-84 | the cached service when it holds the same session, otherwise a new one bound to it |
| Dependencies.ServiceContainer.GetAnalyzer | dependencies.py:86-90 | the analyser is fetched once and reused afterwards |
| Dependencies.ServiceContainer.GetServices | dependencies.py:108-128 | the service bound to the session and the cached analyser |
| Dependencies.AnalyzerFetchedOnce | dependencies.py:86-90 | two successive requests get the same analyser, even when the factory would hand out another |
| Config.Lower | config.py:85 | `lower()` maps every character to its lower-case form, keeping the length |
| Config.LowerIdempotent | config.py:85 | lowering twice is lowering once |
| Config.EnvironmentTests | config.py:83-90 | both checks ignore case, and an environment is never both production and development |
| Config.UpperCaseProduction | config.py:83-85 | `PRODUCTION` counts as production |
| Config.DatabaseConfigOf | config.py:213-224 | the grouped database settings copy the connection fields |
| Config.DatabaseUrlShape | config.py:92-95 | the URL is non-empty, starts with `postgresql://`, names the database, and the grouped settings give the same URL |
| Config.CorsOriginsList | config.py:97-102 | one origin per comma-separated piece, each stripped |
| Config.CorsOriginsCount | config.py:100-101 | the list has one more element than the text has commas, and each element is already stripped |
| Config.CorsPolicy | config.py:109-126 | production lists its origins, methods and headers without wildcards; otherwise everything is a wildcard with credentials |
| Config.LlmConfiguredByLength | config.py:104-107 | configured exactly when the key is longer than 20 characters (the placeholder is shorter); the defaults are not configured |
| Config.Bulleted | config.py:174 | one bullet per error |
| Config.ValidateConfiguration | config.py:152-177 | raises exactly when the API URL is empty or the port is outside 1..65535, with the bulleted message; otherwise True |
| Config.ValidationMessages | config.py:166-175 | the exact message for each of the three failing cases |
| Config.DefaultsAreValid | config.py:16-80 | the default settings pass validation and are a development environment |
| Config.SummaryContents | config.py:181-209 | four sections; the origin count is the number of commas plus one; `api_configured` is the key-length test; no password, user or key is exposed |
| SimpleApi.Suggestions | simple_api.py:108-144 | every template has exactly four suggestions |
| SimpleApi.SimulateLlmAnalysis | simple_api.py:99-148 | four suggestions, and the text ends with the first 200 characters of the content followed by `...` |
| SimpleApi.UnknownTypeFallsBack | simple_api.py:148 | a type with no template gets the routine lab template, at low risk |
| SimpleApi.TemplateRiskLevels | simple_api.py:105-146 | the four risk levels are 低风险, 中风险, 中风险 and 需要专业评估 |
| SimpleApi.AnalysisEmbedsContent | simple_api.py:105-146 | the text ends in `...`, embeds at most 200 characters of the content, and the whole content when it is short |
| SimpleApi.ContentsSplitBack | simple_api.py:212-268 | the mock content split on spaces gives the request's fields back when they hold no space |
| SimpleApi.ReportIdParts | simple_api.py:188 | the report id splits on `_` into prefix, card, an 8-digit date and a 6-digit time |
| SimpleApi.EndpointAnswers | simple_api.py:178-287 | every endpoint answers success with four suggestions, the template's risk level, and an id of its own prefix |
| WorkflowExamples.AfterLastShape | langchain_workflow_examples.py:327 | the extracted text follows the last occurrence of the marker and runs to the end of that line |
| WorkflowExamples.Parse | langchain_workflow_examples.py:321-337 | `full_analysis` is the text; each other key is present exactly when its keyword occurs, with the rest of the line after the last occurrence, or the fixed diagnosis default |
| WorkflowExamples.PatientLookup | langchain_workflow_examples.py:370-378 | only the three demo patients are found |
| WorkflowExamples.SymptomPriority | langchain_workflow_examples.py:388-397 | fever wins over chest pain, which wins over headache; more detail is asked for exactly when none is mentioned |
| WorkflowExamples.FeverDominates | langchain_workflow_examples.py:390-391 | a mention of fever anywhere decides the answer |
| WorkflowExamples.RouteBands | langchain_workflow_examples.py:529-541 | under 18 is pediatric, 65 and over geriatric, and a missing or unparseable age adult |
| WorkflowExamples.RouteOfWrittenAge | langchain_workflow_examples.py:529-541 | an age written as a decimal number is routed by its value |

## Left out

- The cache key's MD5 of a sorted-key JSON dump is modelled as an injective record of its four inputs. Hash collisions and JSON encoding are not modelled.
- Eviction ties: when several entries share the least timestamp, the model proves only that one of them is removed, not which one `min` picks.
- Time is integer seconds; a `datetime` value in a row dict is the `Time` value, which JSON cannot encode. `processed_at` in the success envelope is that integer, not the `isoformat()` text. Error envelopes take the ISO text as a parameter.
- async/await is sequential. `asyncio.sleep` and `asyncio.TimeoutError` are not modelled.
- Logging, database connection failures other than a failed commit, and the `get_db`/`get_health_check_db` session providers are not modelled.
- `verify_permissions` (always True), `log_request_info`, `get_error_handler` and `UnifiedErrorHandler.log_error` are not modelled: they only log or return constants.
- `str()` of a payload value and the text `json.dumps(..., indent=2)` produces are function parameters, not implementations. Whether `json.dumps` raises is modelled: it raises exactly on a `datetime`, the one non-JSON value the rows hold.
- Models.Session.Commit does not model the JSON columns' encoding of report rows: those hold only request payloads, which never contain a `datetime`.
- The outer `except` branches of `analyze_with_llm` (timeout, and the generic fallback) are not modelled: nothing inside the outer `try` can raise once the model call's own handler catches every exception.
- The generic `except Exception` of `/compare-reports` is not modelled: every failure it would catch has already been turned into a result by the analyser or the database layer.
- `_calculate_analysis_confidence`'s `未知` branch is not modelled: it is unreachable, because `len()` of a string cannot raise.
- The `/patient-history` endpoint wrapper is not modelled. The query it calls is.
- An explicit null `comparisonPeriod` is not modelled: the period is always a string.
- `str.strip`, `str.lower` and `int()` are modelled on ASCII only. Unicode whitespace, Unicode case, underscores in numbers and non-ASCII digits are not.
- The `cors_origins` branch for a non-string value is not modelled: the field is declared `str`.
- The floating-point settings `llm_temperature` and `llm_top_p`, and the `LLMConfig`/`ServerConfig` grouping classes, are not modelled: they only copy fields.
- `validate_configuration`'s `数据库配置错误` and `数据库URL构建失败` branches are not modelled: building the URL cannot fail, and the URL is never empty (`Config.DatabaseUrlShape`).
- The `except` branches of the demo endpoints are not modelled: nothing inside their `try` raises.
- The chain, agent, memory and LCEL constructions in the workflow examples, and FastAPI wiring and exception handlers, are not modelled: they are library glue.
- `get_medical_analyzer` is not modelled: it is the `shared` parameter of `Dependencies.ServiceContainer.GetAnalyzer`.
- `singletons.py` is not part of this model. `models.py` and `schemas.py` are used only to shape the records.

## Findings

| source | as written | input that shows it | evidently intended | confidence | as-written member | corrected member |
|---|---|---|---|---|---|---|
| database_service.py:545-668 | `PatientInfo` (models.py:83-102) declares no `pathology_reports`, `pacs_reports` or `microbiological_reports` column, so the three `get_latest_*` lookups and the history dict raise AttributeError, which their `except` turns into None or `[]` | a patient row whose `pathology_reports` is `"X"`: the pathology lookup returns None | the lookups return the latest non-empty slot, as the lab lookup does; the report pipeline's history (report_service.py:287-325) is built on that intended lookup | not executed | DatabaseService.LatestSlotAsWritten, DatabaseService.LatestAsWrittenMissesReport, DatabaseService.PatientInfoHistoryAsWritten, DatabaseService.EmptyLabDetailInHistoryOnly, ReportService.HistoryAsWritten | DatabaseService.LatestSlot, DatabaseService.LatestSlotSpec, DatabaseService.PatientInfoHistory, DatabaseService.PatientInfoHistorySpec, ReportService.HistoryFromLatestRow |
| api.py:749 | `PathologyReportRequest` (schemas.py:69-87) has no `reportDate` field, so `request.reportDate` raises on every pathology request | any pathology request | the pathology endpoint defaults the date like the other three | not executed | Api.PathologyReportAsWritten, Api.PathologyRequestAlwaysRaises | Api.PathologyReport, Api.CreatePathologyReport |
