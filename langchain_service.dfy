// The comparison analyser (langchain_service.py:199-448): choosing the
// template, rendering reports as prompt text, and turning the model's reply
// into the stored comparison fields. The model itself is a function
// parameter; so are Python's `str()` of a payload value and
// `json.dumps(..., indent=2)` of a payload.

module LangchainService {
  import opened Common
  import opened Exceptions

  // ---------------------------------------------------------------------
  // _get_comparison_template (langchain_service.py:199-207)
  // ---------------------------------------------------------------------

  datatype Template =
    | RoutineLabComparison
    | MicrobiologyComparison
    | ExaminationComparison
    | PathologyComparison

  /** The report type each template is registered under. */
  function TemplateType(t: Template): string
  {
    match t
    case RoutineLabComparison => "routine_lab"
    case MicrobiologyComparison => "microbiology"
    case ExaminationComparison => "examination"
    case PathologyComparison => "pathology"
  }

  /** `template_map.get(report_type, routine_lab template)`. */
  function ComparisonTemplate(reportType: string): Template
  {
    if reportType == "microbiology" then MicrobiologyComparison
    else if reportType == "examination" then ExaminationComparison
    else if reportType == "pathology" then PathologyComparison
    else RoutineLabComparison
  }

  /** Each template is the one chosen for its own type ... */
  lemma TemplateForOwnType(t: Template)
    ensures ComparisonTemplate(TemplateType(t)) == t
  {
    match t
    case RoutineLabComparison =>
      assert TemplateType(t)[0] == 'r';
    case MicrobiologyComparison =>
    case ExaminationComparison =>
      assert TemplateType(t)[0] == 'e';
    case PathologyComparison =>
      assert TemplateType(t)[0] == 'p';
  }

  /** ... and any type that names no template gets the routine one. */
  lemma TemplateFallback(reportType: string)
    requires forall t: Template :: TemplateType(t) != reportType
    ensures ComparisonTemplate(reportType) == RoutineLabComparison
  {
    assert TemplateType(MicrobiologyComparison) != reportType;
    assert TemplateType(ExaminationComparison) != reportType;
    assert TemplateType(PathologyComparison) != reportType;
  }

  // ---------------------------------------------------------------------
  // _format_report_data (langchain_service.py:209-266)
  // ---------------------------------------------------------------------

  /** One `result_list` item of a routine lab report. */
  function LabLine(item: map<string, Value>, show: Value -> string): string
  {
    var reference := GetOr(item, "reference", Str(""));
    "- " + show(GetOr(item, "name", Str("未知项目"))) + ": " + show(GetOr(item, "value", Str("未知值")))
      + " " + show(GetOr(item, "unit", Str("")))
      + (if Truthy(reference) then " (参考值: " + show(reference) + ")" else "")
      + "\n"
  }

  /** The lines of the dict items of `items`, in order. */
  function LabLines(items: seq<Value>, show: Value -> string): string
  {
    if items == [] then ""
    else
      var last := items[|items| - 1];
      LabLines(items[..|items| - 1], show) + (if last.Object? then LabLine(last.fields, show) else "")
  }

  /** The dict items of `items`, in order. */
  function Dicts(items: seq<Value>): (r: seq<Value>)
    ensures |r| <= |items|
    ensures forall i :: 0 <= i < |r| ==> r[i].Object?
  {
    if items == [] then []
    else
      var last := items[|items| - 1];
      Dicts(items[..|items| - 1]) + (if last.Object? then [last] else [])
  }

  lemma LabLinesSnoc(s: seq<Value>, x: Value, show: Value -> string)
    ensures LabLines(s + [x], show) == LabLines(s, show) + (if x.Object? then LabLine(x.fields, show) else "")
    ensures Dicts(s + [x]) == Dicts(s) + (if x.Object? then [x] else [])
  {
    assert (s + [x])[..|s|] == s;
  }

  /** Items that are not dicts contribute nothing. */
  lemma {:induction false} LabLinesSkipNonDicts(items: seq<Value>, show: Value -> string)
    ensures LabLines(items, show) == LabLines(Dicts(items), show)
  {
    if items != [] {
      var init := items[..|items| - 1];
      var x := items[|items| - 1];
      assert items == init + [x];
      LabLinesSkipNonDicts(init, show);
      LabLinesSnoc(init, x, show);
      if x.Object? {
        LabLinesSnoc(Dicts(init), x, show);
      } else {
        assert Dicts(init) + [] == Dicts(init);
      }
    }
  }

  /** The keys a report type lists, each with its label, in output order. */
  const MicrobiologyFields: seq<(string, string)> :=
    [("microbe_result_list", "微生物培养"), ("bacterial_result_list", "细菌鉴定"),
     ("drug_sensitivity_list", "药敏结果")]
  const ExaminationFields: seq<(string, string)> :=
    [("exam_observation", "客观所见"), ("exam_result", "主观提示")]
  const PathologyFields: seq<(string, string)> :=
    [("diagnosis_name", "诊断"), ("exam_observation", "镜下所见"), ("exam_result", "病理诊断")]

  /** One `label: value` line per listed key that is present. */
  function KeyedLines(data: map<string, Value>, fields: seq<(string, string)>, show: Value -> string): string
  {
    if fields == [] then ""
    else
      (if fields[0].0 in data then fields[0].1 + ": " + show(data[fields[0].0]) + "\n" else "")
      + KeyedLines(data, fields[1..], show)
  }

  /** Only the listed keys matter: two payloads that agree on them render
      alike, whatever else they hold. */
  lemma {:induction false} KeyedLinesListedKeysOnly(d1: map<string, Value>, d2: map<string, Value>,
                                                    fields: seq<(string, string)>, show: Value -> string)
    requires forall i :: 0 <= i < |fields| ==>
               (fields[i].0 in d1 <==> fields[i].0 in d2) &&
               (fields[i].0 in d1 ==> d1[fields[i].0] == d2[fields[i].0])
    ensures KeyedLines(d1, fields, show) == KeyedLines(d2, fields, show)
  {
    if fields != [] {
      assert fields[0] == fields[0];
      KeyedLinesListedKeysOnly(d1, d2, fields[1..], show);
    }
  }

  /** Absent keys add nothing: with none of them the section is empty. */
  lemma {:induction false} KeyedLinesNoneListed(data: map<string, Value>, fields: seq<(string, string)>,
                                                show: Value -> string)
    requires forall i :: 0 <= i < |fields| ==> fields[i].0 !in data
    ensures KeyedLines(data, fields, show) == ""
  {
    if fields != [] {
      assert fields[0].0 !in data;
      KeyedLinesNoneListed(data, fields[1..], show);
    }
  }

  const LabHeader: string := "检验项目及结果：\n"

  /** What the standard `json.dumps` raises on a `datetime`. */
  const NotSerializable: Raised := OtherErr(DatetimeTypeError)
  const DatetimeTypeError: string := "Object of type datetime is not JSON serializable"

  /** `json.dumps(report_data, ensure_ascii=False, indent=2)`: `dump` is
      the text of a dict the encoder accepts; a `datetime` anywhere raises
      `TypeError`. */
  function JsonDumps(data: map<string, Value>, dump: map<string, Value> -> string): Result<string, Raised>
  {
    if JsonEncodable(Object(data)) then Ok(dump(data)) else Err(NotSerializable)
  }

  /** What `_format_report_data` returns, or what it raises: the JSON
      fallback fails on a `datetime`, and the `except` branch dumps the same
      dict again, which fails the same way. */
  function FormattedReport(data: map<string, Value>, reportType: string,
                           show: Value -> string, dump: map<string, Value> -> string): Result<string, Raised>
  {
    if reportType == "routine_lab" && "result_list" in data then
      Ok(LabHeader + (if data["result_list"].List? then LabLines(data["result_list"].items, show) else ""))
    else if reportType == "microbiology" then Ok("微生物检验结果：\n" + KeyedLines(data, MicrobiologyFields, show))
    else if reportType == "examination" then Ok("检查报告结果：\n" + KeyedLines(data, ExaminationFields, show))
    else if reportType == "pathology" then Ok("病理报告结果：\n" + KeyedLines(data, PathologyFields, show))
    else JsonDumps(data, dump)
  }

  /** Unknown types, and a routine lab payload without `result_list`, fall
      back to the JSON dump: its text when the dict holds no `datetime`,
      otherwise the `TypeError`, which escapes the `except` branch. */
  lemma FormattedReportFallback(data: map<string, Value>, reportType: string,
                                show: Value -> string, dump: map<string, Value> -> string)
    requires reportType !in {"microbiology", "examination", "pathology"}
    requires reportType == "routine_lab" ==> "result_list" !in data
    ensures FormattedReport(data, reportType, show, dump).Ok? <==> JsonEncodable(Object(data))
    ensures FormattedReport(data, reportType, show, dump).Ok? ==>
              FormattedReport(data, reportType, show, dump).value == dump(data)
    ensures FormattedReport(data, reportType, show, dump).Err? ==>
              FormattedReport(data, reportType, show, dump).error == NotSerializable
  {
  }

  /** The per-type renderings never raise; only the JSON fallback can. */
  lemma FormattedReportOwnTypes(data: map<string, Value>, reportType: string,
                                show: Value -> string, dump: map<string, Value> -> string)
    requires reportType in {"microbiology", "examination", "pathology"} ||
             (reportType == "routine_lab" && "result_list" in data)
    ensures FormattedReport(data, reportType, show, dump).Ok?
  {
  }

  /** `_format_report_data`: the routine lab items are appended one by one;
      a failed JSON dump is retried once by the `except` branch. */
  method FormatReportData(data: map<string, Value>, reportType: string,
                          show: Value -> string, dump: map<string, Value> -> string)
    returns (text: Result<string, Raised>)
    ensures text == FormattedReport(data, reportType, show, dump)
  {
    if reportType == "routine_lab" && "result_list" in data {
      var results := data["result_list"];
      var acc := LabHeader;
      if results.List? {
        var items := results.items;
        var i := 0;
        while i < |items|
          invariant 0 <= i <= |items|
          invariant acc == LabHeader + LabLines(items[..i], show)
        {
          if items[i].Object? {
            acc := acc + LabLine(items[i].fields, show);
          }
          assert items[..i + 1][..i] == items[..i];
          i := i + 1;
        }
        assert items[..|items|] == items;
      }
      assert acc == LabHeader + (if results.List? then LabLines(results.items, show) else "");
      text := Ok(acc);
    } else if reportType == "microbiology" {
      text := Ok("微生物检验结果：\n" + KeyedLines(data, MicrobiologyFields, show));
      assert text == FormattedReport(data, reportType, show, dump);
    } else if reportType == "examination" {
      text := Ok("检查报告结果：\n" + KeyedLines(data, ExaminationFields, show));
    } else if reportType == "pathology" {
      text := Ok("病理报告结果：\n" + KeyedLines(data, PathologyFields, show));
    } else {
      text := JsonDumps(data, dump);
      if text.Err? {
        // the `except` branch: the same dump again
        text := JsonDumps(data, dump);
      }
    }
  }

  // ---------------------------------------------------------------------
  // _extract_key_changes (langchain_service.py:269-300)
  // ---------------------------------------------------------------------

  datatype KeyChanges = KeyChanges(
    significantChanges: seq<string>,
    trends: seq<string>,
    abnormalValues: seq<string>,
    recommendations: seq<string>)

  /** Some word of `words` occurs in `text`. */
  predicate Mentions(text: string, words: seq<string>)
  {
    exists i :: 0 <= i < |words| && Contains(text, words[i])
  }

  const RiseWords: seq<string> := ["上升", "增高", "升高"]
  const FallWords: seq<string> := ["下降", "降低", "减少"]
  const AbnormalWords: seq<string> := ["异常", "超标", "偏高", "偏低"]
  const AdviceWords: seq<string> := ["建议", "推荐"]

  /** The keyword tags of an analysis text. */
  function KeyChangesOf(text: string): KeyChanges
  {
    KeyChanges(
      [],
      (if Mentions(text, RiseWords) then ["指标上升"] else [])
        + (if Mentions(text, FallWords) then ["指标下降"] else []),
      if Mentions(text, AbnormalWords) then ["存在异常值"] else [],
      if Mentions(text, AdviceWords) then ["需要关注"] else [])
  }

  /** Always the four lists; `significant_changes` stays empty; each tag is
      present exactly when its keyword group occurs, and no group adds more
      than one tag. */
  lemma KeyChangeTags(text: string)
    ensures var k := KeyChangesOf(text);
      k.significantChanges == [] &&
      ("指标上升" in k.trends <==> Mentions(text, RiseWords)) &&
      ("指标下降" in k.trends <==> Mentions(text, FallWords)) &&
      (k.abnormalValues != [] <==> Mentions(text, AbnormalWords)) &&
      (k.recommendations != [] <==> Mentions(text, AdviceWords)) &&
      |k.trends| <= 2 && |k.abnormalValues| <= 1 && |k.recommendations| <= 1
  {
    var up: string := "指标上升";
    var down: string := "指标下降";
    assert up[2] != down[2];
  }

  /** `_extract_key_changes`: the lists are filled by `append`. */
  method ExtractKeyChanges(text: string) returns (k: KeyChanges)
    ensures k == KeyChangesOf(text)
  {
    var trends: seq<string> := [];
    var abnormal: seq<string> := [];
    var advice: seq<string> := [];
    if Mentions(text, RiseWords) {
      trends := trends + ["指标上升"];
    }
    if Mentions(text, FallWords) {
      trends := trends + ["指标下降"];
    }
    if Mentions(text, AbnormalWords) {
      abnormal := abnormal + ["存在异常值"];
    }
    if Mentions(text, AdviceWords) {
      advice := advice + ["需要关注"];
    }
    k := KeyChanges([], trends, abnormal, advice);
  }

  // ---------------------------------------------------------------------
  // _calculate_analysis_confidence (langchain_service.py:302-313)
  // ---------------------------------------------------------------------

  /** `len()` of a str never raises, so the `"未知"` branch is unreachable. */
  function Confidence(historyCount: int, text: string): string
  {
    if historyCount >= 5 && |text| > 500 then "高"
    else if historyCount >= 3 && |text| > 300 then "中"
    else "低"
  }

  function ConfidenceRank(c: string): nat
  {
    if c == "高" then 2 else if c == "中" then 1 else 0
  }

  /** More history or a longer text never lowers the confidence. */
  lemma ConfidenceMonotone(c1: int, t1: string, c2: int, t2: string)
    requires c1 <= c2 && |t1| <= |t2|
    ensures ConfidenceRank(Confidence(c1, t1)) <= ConfidenceRank(Confidence(c2, t2))
  {
    var hi: string := "高";
    var mid: string := "中";
    var lo: string := "低";
    assert hi != mid && hi != lo && mid != lo by {
      assert hi[0] != mid[0] && hi[0] != lo[0] && mid[0] != lo[0];
    }
  }

  // ---------------------------------------------------------------------
  // compare_reports post-processing (langchain_service.py:385-448)
  // ---------------------------------------------------------------------

  const TrendWords: seq<string> := ["趋势", "变化", "发展"]
  const RiskWords: seq<string> := ["风险", "评估", "危险"]
  const AdviceSectionWords: seq<string> := ["建议", "推荐", "注意"]

  datatype Bucket = TrendBucket | RiskBucket | AdviceBucket | Dropped

  /** The first keyword group a section mentions decides its bucket. */
  function BucketOf(section: string): Bucket
  {
    if Mentions(section, TrendWords) then TrendBucket
    else if Mentions(section, RiskWords) then RiskBucket
    else if Mentions(section, AdviceSectionWords) then AdviceBucket
    else Dropped
  }

  /** The sections that `f` puts in bucket `b`, in order. */
  function PickedBy(sections: seq<string>, f: string -> Bucket, b: Bucket): seq<string>
  {
    if sections == [] then []
    else
      var last := sections[|sections| - 1];
      PickedBy(sections[..|sections| - 1], f, b) + (if f(last) == b then [last] else [])
  }

  /** The sections that land in bucket `b`, in order. */
  function Picked(sections: seq<string>, b: Bucket): seq<string>
  {
    PickedBy(sections, BucketOf, b)
  }

  /** `+= section + "\n"` over a list of sections. */
  function Glue(sections: seq<string>): string
  {
    if sections == [] then ""
    else Glue(sections[..|sections| - 1]) + sections[|sections| - 1] + "\n"
  }

  /** Every section lands in exactly one of the four buckets (the last one
      being "dropped"). */
  lemma PickedPartition(sections: seq<string>)
    ensures multiset(Picked(sections, TrendBucket)) + multiset(Picked(sections, RiskBucket))
            + multiset(Picked(sections, AdviceBucket)) + multiset(Picked(sections, Dropped))
            == multiset(sections)
  {
    PartitionBy(sections, BucketOf);
  }

  /** Everything the four buckets of `f` hold. */
  ghost function Buckets(sections: seq<string>, f: string -> Bucket): multiset<string>
  {
    multiset(PickedBy(sections, f, TrendBucket)) + multiset(PickedBy(sections, f, RiskBucket))
      + multiset(PickedBy(sections, f, AdviceBucket)) + multiset(PickedBy(sections, f, Dropped))
  }

  lemma {:induction false} PartitionBy(sections: seq<string>, f: string -> Bucket)
    ensures Buckets(sections, f) == multiset(sections)
  {
    if sections != [] {
      var init := sections[..|sections| - 1];
      var x := sections[|sections| - 1];
      assert sections == init + [x];
      assert multiset(sections) == multiset(init) + multiset{x};
      PartitionBy(init, f);
      BucketsStep(sections, f);
    }
  }

  lemma BucketsStep(sections: seq<string>, f: string -> Bucket)
    requires sections != []
    ensures Buckets(sections, f) == Buckets(sections[..|sections| - 1], f) + multiset{sections[|sections| - 1]}
  {
    var x := sections[|sections| - 1];
    PickedByStep(sections, f, TrendBucket);
    PickedByStep(sections, f, RiskBucket);
    PickedByStep(sections, f, AdviceBucket);
    PickedByStep(sections, f, Dropped);
  }

  lemma PickedByStep(sections: seq<string>, f: string -> Bucket, c: Bucket)
    requires sections != []
    ensures multiset(PickedBy(sections, f, c)) ==
            multiset(PickedBy(sections[..|sections| - 1], f, c)) +
            (if f(sections[|sections| - 1]) == c then multiset{sections[|sections| - 1]} else multiset{})
  {
  }

  /** Priority: a section that mentions a trend word goes to the trend
      bucket even when it also mentions risk or advice words, and a risk
      section never reaches the recommendations. */
  lemma BucketPriority(section: string)
    ensures Mentions(section, TrendWords) ==>
              (Picked([section], TrendBucket) == [section] &&
               Picked([section], RiskBucket) == [] && Picked([section], AdviceBucket) == [])
    ensures !Mentions(section, TrendWords) && Mentions(section, RiskWords) ==>
              (Picked([section], RiskBucket) == [section] && Picked([section], AdviceBucket) == [])
  {
    PickedSnoc([], section, TrendBucket);
    PickedSnoc([], section, RiskBucket);
    PickedSnoc([], section, AdviceBucket);
    assert [] + [section] == [section];
  }

  /** Adding a section at the end adds it to its own bucket only. */
  lemma PickedSnoc(s: seq<string>, x: string, b: Bucket)
    ensures Picked(s + [x], b) == Picked(s, b) + (if BucketOf(x) == b then [x] else [])
  {
    assert (s + [x])[..|s|] == s;
  }

  /** The result split loop: every section is appended to at most one of
      three texts. */
  method SplitSections(text: string) returns (trend: string, risk: string, advice: string)
    ensures var sections := Split(text, "\n\n");
      trend == Glue(Picked(sections, TrendBucket)) &&
      risk == Glue(Picked(sections, RiskBucket)) &&
      advice == Glue(Picked(sections, AdviceBucket))
  {
    var sections := Split(text, "\n\n");
    trend, risk, advice := "", "", "";
    var i := 0;
    while i < |sections|
      invariant 0 <= i <= |sections|
      invariant trend == Glue(Picked(sections[..i], TrendBucket))
      invariant risk == Glue(Picked(sections[..i], RiskBucket))
      invariant advice == Glue(Picked(sections[..i], AdviceBucket))
    {
      var section := sections[i];
      // the `if`/`elif` chain on trend, risk and advice words
      var bucket := BucketOf(section);
      SplitStep(sections, i, bucket, TrendBucket, trend);
      SplitStep(sections, i, bucket, RiskBucket, risk);
      SplitStep(sections, i, bucket, AdviceBucket, advice);
      if bucket == TrendBucket {
        trend := trend + section + "\n";
      } else if bucket == RiskBucket {
        risk := risk + section + "\n";
      } else if bucket == AdviceBucket {
        advice := advice + section + "\n";
      }
      i := i + 1;
    }
    assert sections[..|sections|] == sections;
  }

  /** One turn of the split loop for bucket `b`. */
  lemma SplitStep(sections: seq<string>, i: nat, bucket: Bucket, b: Bucket, acc: string)
    requires i < |sections| && bucket == BucketOf(sections[i])
    requires acc == Glue(Picked(sections[..i], b))
    ensures (if bucket == b then acc + sections[i] + "\n" else acc) == Glue(Picked(sections[..i + 1], b))
  {
    var prefix, section := sections[..i], sections[i];
    assert sections[..i + 1] == prefix + [section];
    PickedSnoc(prefix, section, b);
    GlueSnoc(Picked(prefix, b), section);
    assert Picked(prefix, b) + [] == Picked(prefix, b);
  }

  lemma GlueSnoc(s: seq<string>, x: string)
    ensures Glue(s + [x]) == Glue(s) + x + "\n"
  {
    assert (s + [x])[..|s|] == s;
  }

  /** `text.strip() or default`. */
  function StrippedOr(text: string, default: string): (r: string)
    ensures default != "" ==> r != ""
  {
    if Strip(text) == "" then default else Strip(text)
  }

  /** The result of a successful comparison; `keyChanges` is None for the
      `{}` of the error fallback. */
  datatype ComparisonResult = ComparisonResult(
    langchainAnalysis: string,
    keyChanges: Option<KeyChanges>,
    trendAnalysis: string,
    riskAssessment: string,
    recommendations: string,
    analysisModel: string,
    analysisConfidence: string,
    tokensUsed: int)

  const NoTrend: string := "未识别到明显趋势"
  const NoRisk: string := "风险评估需要更多数据"
  const NoAdvice: string := "建议咨询专业医生"

  /** The dict `compare_reports` builds from the reply text. */
  function PostProcessed(text: string, historyCount: int, model: string, tokens: int): ComparisonResult
  {
    var sections := Split(text, "\n\n");
    ComparisonResult(
      text, Some(KeyChangesOf(text)),
      StrippedOr(Glue(Picked(sections, TrendBucket)), NoTrend),
      StrippedOr(Glue(Picked(sections, RiskBucket)), NoRisk),
      StrippedOr(Glue(Picked(sections, AdviceBucket)), NoAdvice),
      model, Confidence(historyCount, text), tokens)
  }

  /** A reply with no section in a bucket gets that bucket's default text,
      and no bucket text is ever empty. */
  lemma PostProcessedDefaults(text: string, historyCount: int, model: string, tokens: int)
    ensures var r := PostProcessed(text, historyCount, model, tokens);
      r.langchainAnalysis == text && r.trendAnalysis != "" && r.riskAssessment != "" &&
      r.recommendations != ""
    ensures (forall s :: s in Split(text, "\n\n") ==> BucketOf(s) != TrendBucket) ==>
              PostProcessed(text, historyCount, model, tokens).trendAnalysis == NoTrend
    ensures (forall s :: s in Split(text, "\n\n") ==> BucketOf(s) != RiskBucket) ==>
              PostProcessed(text, historyCount, model, tokens).riskAssessment == NoRisk
    ensures (forall s :: s in Split(text, "\n\n") ==> BucketOf(s) != AdviceBucket) ==>
              PostProcessed(text, historyCount, model, tokens).recommendations == NoAdvice
  {
    var sections := Split(text, "\n\n");
    assert Strip("") == "";
    if forall s :: s in sections ==> BucketOf(s) != TrendBucket {
      NoneInBucket(sections, TrendBucket);
    }
    if forall s :: s in sections ==> BucketOf(s) != RiskBucket {
      NoneInBucket(sections, RiskBucket);
    }
    if forall s :: s in sections ==> BucketOf(s) != AdviceBucket {
      NoneInBucket(sections, AdviceBucket);
    }
  }

  /** A bucket no section falls into stays empty. */
  lemma {:induction false} NoneInBucket(sections: seq<string>, b: Bucket)
    requires forall s :: s in sections ==> BucketOf(s) != b
    ensures Picked(sections, b) == []
  {
    if sections != [] {
      var init := sections[..|sections| - 1];
      assert forall s :: s in init ==> s in sections;
      NoneInBucket(init, b);
      assert sections[|sections| - 1] in sections;
    }
  }

  /** What a non-`LangChainError` failure returns instead of raising. */
  function FallbackResult(message: string): ComparisonResult
  {
    ComparisonResult("分析过程中发生错误: " + message, None, "分析失败", "无法评估",
                     "请联系技术支持", "error", "无", 0)
  }

  /** `self.model_name`, or "llama3.1" for the local model. */
  function ModelLabel(useLocalModel: bool, modelName: string): string
  {
    if useLocalModel then "llama3.1" else modelName
  }

  /** The outcome of `compare_reports` for the model's reply: a processed
      result, the fallback for a foreign failure, or the `LangChainError`
      re-raised. */
  function CompareOutcome(cardNo: string, reply: Result<string, Raised>, historyCount: int,
                          model: string, tokens: int): Result<ComparisonResult, MedicalReportError>
  {
    match reply
    case Ok(text) => Ok(PostProcessed(text, historyCount, model, tokens))
    case Err(e) =>
      if e.Medical? && e.err.kind.LangChain? then Err(e.err)
      else Ok(FallbackResult(HandleLangchainError("报告对比分析", cardNo, e).message))
  }

  /** Only a `LangChainError` escapes; any other failure becomes the
      fallback, which names the failure and reports no confidence. */
  lemma CompareOutcomeErrors(cardNo: string, e: Raised, historyCount: int, model: string, tokens: int)
    ensures CompareOutcome(cardNo, Err(e), historyCount, model, tokens).Err? <==>
            e.Medical? && e.err.kind.LangChain?
    ensures CompareOutcome(cardNo, Err(e), historyCount, model, tokens).Ok? ==>
      var r := CompareOutcome(cardNo, Err(e), historyCount, model, tokens).value;
      r.analysisConfidence == "无" && r.tokensUsed == 0 && r.keyChanges.None? &&
      Contains(r.langchainAnalysis, Text(e))
  {
    if !(e.Medical? && e.err.kind.LangChain?) {
      var m := HandleLangchainError("报告对比分析", cardNo, e).message;
      assert m == "LangChain " + "报告对比分析" + " 执行失败: " + Text(e);
      ContainsTail("分析过程中发生错误: ", "LangChain " + "报告对比分析" + " 执行失败: ", Text(e));
    }
  }

  lemma ContainsTail(a: string, b: string, t: string)
    ensures Contains(a + (b + t), t)
  {
    assert a + (b + t) == (a + b) + t;
    ContainsSuffix(a + b, t);
  }

  // ---------------------------------------------------------------------
  // The chain's inputs (langchain_service.py:339-383)
  // ---------------------------------------------------------------------

  /** `report.get('report_date', report.get('created_at', '未知'))`. */
  function ReportDate(r: map<string, Value>): Value
  {
    GetOr(r, "report_date", GetOr(r, "created_at", Str("未知")))
  }

  /** The block of the `n`-th historical report (counting from 1), around
      its rendered text. */
  function HistoryBlock(n: nat, r: map<string, Value>, reportText: string, show: Value -> string): string
  {
    "\n第" + NatToString(n) + "份历史报告 (日期: " + show(ReportDate(r)) + "):\n" + reportText + "\n"
  }

  /** The historical reports' text, or the first rendering failure. */
  function HistoryText(reports: seq<map<string, Value>>, reportType: string,
                       show: Value -> string, dump: map<string, Value> -> string): Result<string, Raised>
  {
    if reports == [] then Ok("")
    else
      var init := HistoryText(reports[..|reports| - 1], reportType, show, dump);
      var last := reports[|reports| - 1];
      if init.Err? then init
      else
        match FormattedReport(last, reportType, show, dump)
        case Err(e) => Err(e)
        case Ok(t) => Ok(init.value + HistoryBlock(|reports|, last, t, show))
  }

  /** The text exists exactly when every report renders, and then every
      historical report appears, numbered by its position. */
  lemma {:induction false} HistoryTextHasEveryReport(reports: seq<map<string, Value>>, reportType: string,
                                                     show: Value -> string, dump: map<string, Value> -> string)
    ensures HistoryText(reports, reportType, show, dump).Ok? <==>
              forall i :: 0 <= i < |reports| ==> FormattedReport(reports[i], reportType, show, dump).Ok?
    ensures HistoryText(reports, reportType, show, dump).Ok? ==>
      forall i :: 0 <= i < |reports| ==>
        Contains(HistoryText(reports, reportType, show, dump).value,
                 HistoryBlock(i + 1, reports[i], FormattedReport(reports[i], reportType, show, dump).value, show))
  {
    if reports != [] {
      var n := |reports|;
      var init := reports[..n - 1];
      HistoryTextHasEveryReport(init, reportType, show, dump);
      assert forall i :: 0 <= i < n - 1 ==> reports[i] == init[i];
      var whole := HistoryText(reports, reportType, show, dump);
      if whole.Ok? {
        var prefix := HistoryText(init, reportType, show, dump).value;
        var last := HistoryBlock(n, reports[n - 1], FormattedReport(reports[n - 1], reportType, show, dump).value, show);
        assert whole.value == prefix + last;
        forall i | 0 <= i < n
          ensures Contains(prefix + last,
                           HistoryBlock(i + 1, reports[i], FormattedReport(reports[i], reportType, show, dump).value, show))
        {
          if i == n - 1 {
            ContainsSuffix(prefix, last);
          } else {
            var block := HistoryBlock(i + 1, init[i], FormattedReport(init[i], reportType, show, dump).value, show);
            var j: nat :| j <= |prefix| && OccursAt(prefix, block, j);
            OccursInPrefix(prefix + last, block, |prefix|, j);
          }
        }
      }
    }
  }

  datatype ChainInputs = ChainInputs(
    cardNo: string,
    comparisonPeriod: string,
    currentDate: Value,
    currentReport: string,
    historyCount: int,
    historicalReports: string)

  /** The chain's inputs, or the first rendering failure: the current report
      is rendered first, then each historical report in order. */
  function InputsFor(cardNo: string, reportType: string, current: map<string, Value>,
                     historical: seq<map<string, Value>>, period: string,
                     show: Value -> string, dump: map<string, Value> -> string): Result<ChainInputs, Raised>
  {
    match FormattedReport(current, reportType, show, dump)
    case Err(e) => Err(e)
    case Ok(currentText) =>
      match HistoryText(historical, reportType, show, dump)
      case Err(e) => Err(e)
      case Ok(historyText) =>
        Ok(ChainInputs(cardNo, period, ReportDate(current), currentText, |historical|, historyText))
  }

  /** What the `try` of `compare_reports` meets before post-processing: a
      rendering failure, or the chain's reply to the rendered inputs. */
  function ChainReply(cardNo: string, reportType: string, current: map<string, Value>,
                      historical: seq<map<string, Value>>, period: string,
                      show: Value -> string, dump: map<string, Value> -> string,
                      invoke: ChainInputs -> Result<string, Raised>): Result<string, Raised>
  {
    match InputsFor(cardNo, reportType, current, historical, period, show, dump)
    case Err(e) => Err(e)
    case Ok(inputs) => invoke(inputs)
  }

  /** A routine lab comparison whose current report has no top-level
      `result_list` and holds a `datetime` never reaches the chain: the
      rendering raises `TypeError` and the fallback answers, naming it. */
  lemma UnencodableCurrentFallsBack(cardNo: string, current: map<string, Value>,
                                    historical: seq<map<string, Value>>, period: string,
                                    show: Value -> string, dump: map<string, Value> -> string,
                                    invoke: ChainInputs -> Result<string, Raised>, model: string, tokens: int)
    requires "result_list" !in current && !JsonEncodable(Object(current))
    ensures ChainReply(cardNo, "routine_lab", current, historical, period, show, dump, invoke) == Err(NotSerializable)
    ensures CompareOutcome(cardNo, ChainReply(cardNo, "routine_lab", current, historical, period, show, dump, invoke),
                           |historical|, model, tokens)
            == Ok(FallbackResult(HandleLangchainError("报告对比分析", cardNo, NotSerializable).message))
    ensures Contains(FallbackResult(HandleLangchainError("报告对比分析", cardNo, NotSerializable).message).langchainAnalysis,
                     DatetimeTypeError)
  {
    FormattedReportFallback(current, "routine_lab", show, dump);
    ContainsTail("分析过程中发生错误: ", "LangChain " + "报告对比分析" + " 执行失败: ", DatetimeTypeError);
  }

  /** The loop that renders every historical report under its number; the
      first failure is raised. */
  method FormatHistory(historical: seq<map<string, Value>>, reportType: string,
                       show: Value -> string, dump: map<string, Value> -> string)
    returns (text: Result<string, Raised>)
    ensures text == HistoryText(historical, reportType, show, dump)
  {
    var acc := "";
    var i := 0;
    while i < |historical|
      invariant 0 <= i <= |historical|
      invariant HistoryText(historical[..i], reportType, show, dump) == Ok(acc)
    {
      var reportText := FormatReportData(historical[i], reportType, show, dump);
      assert historical[..i + 1][..i] == historical[..i];
      if reportText.Err? {
        text := Err(reportText.error);
        HistoryTextFailsOnward(historical, i + 1, reportType, show, dump);
        return;
      }
      acc := acc + ("\n第" + NatToString(i + 1) + "份历史报告 (日期: "
                    + show(ReportDate(historical[i])) + "):\n" + reportText.value + "\n");
      i := i + 1;
    }
    assert historical[..|historical|] == historical;
    text := Ok(acc);
  }

  /** Once a prefix fails, every longer prefix fails with the same error. */
  lemma {:induction false} HistoryTextFailsOnward(reports: seq<map<string, Value>>, i: nat, reportType: string,
                                                  show: Value -> string, dump: map<string, Value> -> string)
    requires i <= |reports| && HistoryText(reports[..i], reportType, show, dump).Err?
    ensures HistoryText(reports, reportType, show, dump) == HistoryText(reports[..i], reportType, show, dump)
    decreases |reports| - i
  {
    if i < |reports| {
      assert reports[..i + 1][..i] == reports[..i];
      HistoryTextFailsOnward(reports, i + 1, reportType, show, dump);
    } else {
      assert reports[..i] == reports;
    }
  }

  /** The steps after a successful reply: tags, confidence, sections. */
  method PostProcess(text: string, historyCount: int, model: string, tokens: int)
    returns (r: ComparisonResult)
    ensures r == PostProcessed(text, historyCount, model, tokens)
  {
    var keyChanges := ExtractKeyChanges(text);
    var confidence := Confidence(historyCount, text);
    var trend, risk, advice := SplitSections(text);
    r := ComparisonResult(text, Some(keyChanges), StrippedOr(trend, NoTrend), StrippedOr(risk, NoRisk),
                          StrippedOr(advice, NoAdvice), model, confidence, tokens);
  }

  /** `compare_reports`: the chain is `invoke`; `callbackTokens` is what the
      OpenAI callback counts (the local model reports 0). A rendering
      failure is caught by the same `except` as a chain failure. */
  method CompareReports(cardNo: string, reportType: string, current: map<string, Value>,
                        historical: seq<map<string, Value>>, period: string,
                        show: Value -> string, dump: map<string, Value> -> string,
                        invoke: ChainInputs -> Result<string, Raised>,
                        useLocalModel: bool, modelName: string, callbackTokens: int)
    returns (r: Result<ComparisonResult, MedicalReportError>)
    ensures r == CompareOutcome(cardNo, ChainReply(cardNo, reportType, current, historical, period, show, dump, invoke),
                                |historical|, ModelLabel(useLocalModel, modelName),
                                if useLocalModel then 0 else callbackTokens)
  {
    var tokens := if useLocalModel then 0 else callbackTokens;
    var model := ModelLabel(useLocalModel, modelName);
    var reply: Result<string, Raised>;
    var currentText := FormatReportData(current, reportType, show, dump);
    if currentText.Err? {
      reply := Err(currentText.error);
    } else {
      var historyText := FormatHistory(historical, reportType, show, dump);
      if historyText.Err? {
        reply := Err(historyText.error);
      } else {
        var inputs := ChainInputs(cardNo, period, ReportDate(current), currentText.value, |historical|,
                                  historyText.value);
        reply := invoke(inputs);
      }
    }
    if reply.Err? {
      var e := reply.error;
      if e.Medical? && e.err.kind.LangChain? {
        return Err(e.err);
      }
      var handled := HandleLangchainError("报告对比分析", cardNo, e);
      return Ok(FallbackResult(handled.message));
    }
    var result := PostProcess(reply.value, |historical|, model, tokens);
    r := Ok(result);
  }
}
