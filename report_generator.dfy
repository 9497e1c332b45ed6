/** WordMateReportGenerator: the report data as fields of an object, updated
    in place by the parsing, summary, chart and recommendation methods, each
    proved to produce the state its specification function in ReportModel
    describes. */
module ReportGenerator {
  import opened Base
  import opened ElementTree
  import opened ReportModel
  import opened ReportHtml

  /** A step method's outcome agrees with its specification: on success the new
      state is the step's result, on failure the error is the step's and nothing changed. */
  predicate Applied(before: ReportState, step: Result<ReportState>, outcome: Result<()>, after: ReportState) {
    match step
    case Ok(s) => outcome == Ok(()) && after == s
    case Err(e) => outcome == Err(e) && after == before
  }

  /** The texts of the `tag` children of a test's first `tags` descendant. */
  method CollectTags(test: Element) returns (tags: seq<Option<string>>)
    ensures tags == TagsOf(test)
  {
    tags := [];
    var tagsElement := Find(test, "tags");
    if tagsElement.Some? {
      var tagElements := ChildrenNamed(tagsElement.value, "tag");
      var i := 0;
      while i < |tagElements|
        invariant 0 <= i <= |tagElements|
        invariant tags == TagTexts(tagElements[..i])
      {
        assert tagElements[..i + 1][..i] == tagElements[..i];
        tags := tags + [tagElements[i].text];
        i := i + 1;
      }
      assert tagElements[..i] == tagElements;
    }
  }

  /** The keyword loop of _extract_test_info: name and status of each keyword. */
  method CollectKeywords(kwElements: seq<Element>) returns (keywords: seq<Keyword>)
    ensures keywords == KeywordsOf(kwElements)
  {
    keywords := [];
    var j := 0;
    while j < |kwElements|
      invariant 0 <= j <= |kwElements|
      invariant keywords == KeywordsOf(kwElements[..j])
    {
      var kw := kwElements[j];
      var kwStatus := Find(kw, "status");
      var kwStatusText := if kwStatus.Some? then Get(kwStatus.value, "status") else Some("UNKNOWN");
      assert kwElements[..j + 1][..j] == kwElements[..j];
      keywords := keywords + [Keyword(GetOr(kw, "name", "Unknown"), kwStatusText)];
      j := j + 1;
    }
    assert kwElements[..j] == kwElements;
  }

  /** _extract_test_info */
  method ExtractTestInfo(test: Element) returns (r: Result<TestRecord>)
    ensures r == TestInfo(test)
  {
    var name := GetOr(test, "name", "Unknown");
    var status := "UNKNOWN";
    var message := "";
    var ms := 0;
    var startTime: Option<string> := None;
    var endTime: Option<string> := None;
    var statusElement := Find(test, "status");
    if statusElement.Some? {
      var s := statusElement.value;
      status := GetOr(s, "status", "UNKNOWN");
      message := s.text.GetOr("");
      startTime := Get(s, "starttime");
      endTime := Get(s, "endtime");
      var elapsed := Get(s, "elapsed");
      if elapsed.Some? && elapsed.value != "" {
        var parsed := ParseInt(elapsed.value);
        if parsed.Err? {
          return Err(parsed.error);
        }
        ms := parsed.value;
      }
    }
    var tags := CollectTags(test);
    var keywords := CollectKeywords(FindAll(test, "kw"));
    r := Ok(TestRecord(name, status, message, tags, keywords, ms, startTime, endTime));
  }

  /** The body of the loop of _extract_suite_info: the next test's record
      appended and counted under its status. */
  method AddTestRecord(tests: seq<Element>, i: int, records: seq<TestRecord>, stats: SuiteStats)
    returns (res: Result<seq<TestRecord>>, newStats: SuiteStats)
    requires 0 <= i < |tests|
    requires TestInfos(tests[..i]) == Ok(records) && stats == StatsOf(records)
    ensures res == TestInfos(tests[..i + 1])
    ensures res.Ok? ==> newStats == StatsOf(res.value)
  {
    newStats := stats;
    var info := ExtractTestInfo(tests[i]);
    TestInfosStep(tests, i, records);
    if info.Err? {
      return Err(info.error), newStats;
    }
    StatsOfStep(records, info.value);
    res := Ok(records + [info.value]);
    newStats := CountStatus(stats, info.value.status);
  }

  /** The counters of _extract_suite_info updated for one test's status. */
  method CountStatus(stats: SuiteStats, status: string) returns (r: SuiteStats)
    ensures r == Tally(stats, status)
  {
    r := stats.(total := stats.total + 1);
    if status == "PASS" {
      r := r.(passed := r.passed + 1);
    } else if status == "FAIL" {
      r := r.(failed := r.failed + 1);
    } else {
      r := r.(skipped := r.skipped + 1);
    }
  }

  /** The loop of _extract_suite_info over the suite's tests. */
  method ExtractTests(tests: seq<Element>) returns (r: Result<seq<TestRecord>>, stats: SuiteStats)
    ensures r == TestInfos(tests)
    ensures r.Ok? ==> stats == StatsOf(r.value)
  {
    var records: seq<TestRecord> := [];
    stats := SuiteStats(0, 0, 0, 0);
    var i := 0;
    while i < |tests|
      invariant 0 <= i <= |tests|
      invariant TestInfos(tests[..i]) == Ok(records)
      invariant stats == StatsOf(records)
    {
      var res, newStats := AddTestRecord(tests, i, records, stats);
      if res.Err? {
        TestInfosKeepsError(tests, i + 1);
        return res, stats;
      }
      records, stats := res.value, newStats;
      i := i + 1;
    }
    assert tests[..i] == tests;
    r := Ok(records);
  }

  /** _extract_suite_info */
  method ExtractSuiteInfo(root: Element, file: string) returns (r: Result<Option<SuiteRecord>>)
    ensures r == SuiteInfo(root, file)
  {
    var suiteElement := Find(root, "suite");
    if suiteElement.None? {
      return Ok(None);
    }
    var suite := suiteElement.value;
    var statusElement := Find(suite, "status");
    var ms := if statusElement.Some? then ElapsedMs(statusElement.value) else Ok(0);
    if ms.Err? {
      return Err(ms.error);
    }
    var startTime := if statusElement.Some? then Get(statusElement.value, "starttime") else None;
    var endTime := if statusElement.Some? then Get(statusElement.value, "endtime") else None;
    var records, stats := ExtractTests(FindAll(suite, "test"));
    if records.Err? {
      return Err(records.error);
    }
    r := Ok(Some(SuiteRecord(GetOr(suite, "name", "Unknown"), GetOr(suite, "source", file), file,
                             records.value, stats, ms.value, startTime, endTime)));
  }

  /** The reading half of _extract_test_statistics: the `pass` and `fail`
      attributes of the first ".//statistics/total/stat" element. */
  method ReadStatCounts(root: Element) returns (r: Result<(int, int)>)
    ensures r == StatCounts(root)
  {
    var stat := FindStat(root);
    if stat.None? {
      return Ok((0, 0));
    }
    var passed := StatAttr(stat.value, "pass");
    if passed.Err? {
      return Err(passed.error);
    }
    var failedCount := StatAttr(stat.value, "fail");
    if failedCount.Err? {
      return Err(failedCount.error);
    }
    r := Ok((passed.value, failedCount.value));
  }

  /** The body of the loop of _extract_failed_tests: a failing test's entry,
      which reads the name of the document's suite. */
  method AddFailure(tests: seq<Element>, i: int, suiteName: Option<string>, file: string, added: seq<FailedTest>)
    returns (res: Result<seq<FailedTest>>)
    requires 0 <= i < |tests|
    requires FailedOf(tests[..i], suiteName, file) == Ok(added)
    ensures res == FailedOf(tests[..i + 1], suiteName, file)
  {
    FailedOfStep(tests, i, suiteName, file, added);
    var test := tests[i];
    var status := Find(test, "status");
    if status.Some? && Get(status.value, "status") == Some("FAIL") {
      if suiteName.None? {
        return Err(AttributeError);
      }
      var message := if status.value.text.Some? && status.value.text.value != "" then status.value.text.value
                     else "No error message";
      var tags := CollectTags(test);
      res := Ok(added + [FailedTest(GetOr(test, "name", "Unknown"), suiteName.value, message, file, tags)]);
    } else {
      res := Ok(added);
    }
  }

  /** The loop of _extract_failed_tests over the document's tests. */
  method FailedTestsOf(tests: seq<Element>, suiteName: Option<string>, file: string)
    returns (r: Result<seq<FailedTest>>)
    ensures r == FailedOf(tests, suiteName, file)
  {
    var added: seq<FailedTest> := [];
    var i := 0;
    while i < |tests|
      invariant 0 <= i <= |tests|
      invariant FailedOf(tests[..i], suiteName, file) == Ok(added)
    {
      var res := AddFailure(tests, i, suiteName, file, added);
      if res.Err? {
        FailedOfKeepsError(tests, i + 1, suiteName, file);
        return res;
      }
      added := res.value;
      i := i + 1;
    }
    assert tests[..i] == tests;
    r := Ok(added);
  }

  /** One tag of _calculate_summary_statistics sorted into environments or browsers. */
  method ClassifyTag(tag: Option<string>, environments: set<string>, browsers: set<string>)
    returns (envs: set<string>, brs: set<string>)
    ensures envs == environments + (if tag.Some? && tag.value in EnvironmentTags then {tag.value} else {})
    ensures brs == browsers + (if tag.Some? && tag.value in BrowserTags then {tag.value} else {})
  {
    envs, brs := environments, browsers;
    if tag.Some? && tag.value in EnvironmentTags {
      envs := envs + {tag.value};
    } else if tag.Some? && tag.value in BrowserTags {
      brs := brs + {tag.value};
    }
  }

  /** The innermost loop of _calculate_summary_statistics: one test's tags sorted
      into environments and browsers. */
  method ClassifyTags(tags: seq<Option<string>>, environments: set<string>, browsers: set<string>)
    returns (envs: set<string>, brs: set<string>)
    ensures envs == environments + TagsIn(tags, EnvironmentTags)
    ensures brs == browsers + TagsIn(tags, BrowserTags)
  {
    envs, brs := environments, browsers;
    var k := 0;
    while k < |tags|
      invariant 0 <= k <= |tags|
      invariant envs == environments + TagsIn(tags[..k], EnvironmentTags)
      invariant brs == browsers + TagsIn(tags[..k], BrowserTags)
    {
      TagsInStep(tags, k, EnvironmentTags);
      TagsInStep(tags, k, BrowserTags);
      envs, brs := ClassifyTag(tags[k], envs, brs);
      k := k + 1;
    }
    assert tags[..k] == tags;
  }

  /** The loop over one suite's tests in _calculate_summary_statistics. */
  method ClassifyTests(tests: seq<TestRecord>, environments: set<string>, browsers: set<string>)
    returns (envs: set<string>, brs: set<string>)
    ensures envs == environments + TestsTags(tests, EnvironmentTags)
    ensures brs == browsers + TestsTags(tests, BrowserTags)
  {
    envs, brs := environments, browsers;
    var j := 0;
    while j < |tests|
      invariant 0 <= j <= |tests|
      invariant envs == environments + TestsTags(tests[..j], EnvironmentTags)
      invariant brs == browsers + TestsTags(tests[..j], BrowserTags)
    {
      assert tests[..j + 1][..j] == tests[..j];
      envs, brs := ClassifyTags(tests[j].tags, envs, brs);
      j := j + 1;
    }
    assert tests[..j] == tests;
  }

  /** The chart cards of _generate_html_fallback, appended one by one. */
  method AppendChartCards(page: seq<HtmlBlock>, charts: seq<Chart>) returns (out: seq<HtmlBlock>)
    ensures out == page + ChartCards(charts)
  {
    out := page;
    var i := 0;
    while i < |charts|
      invariant 0 <= i <= |charts|
      invariant out == page + ChartCards(charts[..i])
    {
      assert charts[..i + 1][..i] == charts[..i];
      out := out + [ChartCardOf(charts[i])];
      i := i + 1;
    }
    assert charts[..i] == charts;
  }

  /** The charts section, present only when there are charts. */
  method AppendChartSection(page: seq<HtmlBlock>, charts: seq<Chart>) returns (out: seq<HtmlBlock>)
    ensures out == page + ChartSection(charts)
  {
    out := page;
    if charts != [] {
      out := AppendChartCards(out + [ChartsOpen], charts);
      out := out + [ChartsClose];
    }
  }

  /** The rows of the suite table, appended one by one. */
  method AppendSuiteRows(page: seq<HtmlBlock>, suites: seq<SuiteRecord>) returns (out: seq<HtmlBlock>)
    ensures out == page + SuiteRows(suites)
  {
    out := page;
    var i := 0;
    while i < |suites|
      invariant 0 <= i <= |suites|
      invariant out == page + SuiteRows(suites[..i])
    {
      assert suites[..i + 1][..i] == suites[..i];
      out := out + [SuiteRowOf(suites[i])];
      i := i + 1;
    }
    assert suites[..i] == suites;
  }

  /** The suite table, present only when there are suites. */
  method AppendSuiteSection(page: seq<HtmlBlock>, suites: seq<SuiteRecord>) returns (out: seq<HtmlBlock>)
    ensures out == page + SuiteSection(suites)
  {
    out := page;
    if suites != [] {
      out := AppendSuiteRows(out + [SuitesOpen], suites);
      out := out + [SuitesClose];
    }
  }

  /** The failed-test cards, appended one by one; a tag without text makes the
      join raise. */
  method AppendFailedCards(page: seq<HtmlBlock>, failed: seq<FailedTest>) returns (out: Result<seq<HtmlBlock>>)
    ensures FailedCards(failed).Err? ==> out == Err(FailedCards(failed).error)
    ensures FailedCards(failed).Ok? ==> out == Ok(page + FailedCards(failed).value)
  {
    var cards: seq<HtmlBlock> := [];
    var i := 0;
    while i < |failed|
      invariant 0 <= i <= |failed|
      invariant FailedCards(failed[..i]) == Ok(cards)
    {
      assert failed[..i + 1][..i] == failed[..i];
      var tags := TagsText(failed[i].tags);
      if tags.Err? {
        assert !FailedCards(failed).Ok?;
        return Err(TypeError);
      }
      cards := cards + [FailedCardOf(failed[i], tags.value)];
      i := i + 1;
    }
    assert failed[..i] == failed;
    out := Ok(page + cards);
  }

  /** The failed-tests section, present only when a test failed. */
  method AppendFailedSection(page: seq<HtmlBlock>, failed: seq<FailedTest>) returns (out: Result<seq<HtmlBlock>>)
    ensures FailedSection(failed).Err? ==> out == Err(FailedSection(failed).error)
    ensures FailedSection(failed).Ok? ==> out == Ok(page + FailedSection(failed).value)
  {
    if failed == [] {
      assert page + [] == page;
      return Ok(page);
    }
    var withCards := AppendFailedCards(page + [FailedOpen], failed);
    if withCards.Err? {
      return Err(withCards.error);
    }
    var cards := FailedCards(failed).value;
    assert withCards.value + [FailedClose] == page + ([FailedOpen] + cards + [FailedClose]);
    out := Ok(withCards.value + [FailedClose]);
  }

  /** The recommendation cards, appended one by one. */
  method AppendRecCards(page: seq<HtmlBlock>, recs: seq<Recommendation>) returns (out: seq<HtmlBlock>)
    ensures out == page + RecCards(recs)
  {
    out := page;
    var i := 0;
    while i < |recs|
      invariant 0 <= i <= |recs|
      invariant out == page + RecCards(recs[..i])
    {
      assert recs[..i + 1][..i] == recs[..i];
      out := out + [RecCardOf(recs[i])];
      i := i + 1;
    }
    assert recs[..i] == recs;
  }

  /** The recommendations section, present only when there are recommendations. */
  method AppendRecSection(page: seq<HtmlBlock>, recs: seq<Recommendation>) returns (out: seq<HtmlBlock>)
    ensures out == page + RecSection(recs)
  {
    out := page;
    if recs != [] {
      out := AppendRecCards(out + [RecsOpen], recs);
      out := out + [RecsClose];
    }
  }

  /** The rules of generate_recommendations, checked in order against the summary. */
  method BuildRecommendations(s: Summary, failedCount: nat) returns (recs: seq<Recommendation>)
    ensures recs == Recommendations(s, failedCount)
  {
    recs := [];
    var rate := s.successRate;
    if rate < 70.0 {
      recs := recs + [Recommendation(Critical, LowRate, RateFigure(rate), LowRateAction)];
    } else if rate < 90.0 {
      recs := recs + [Recommendation(Warning, ModerateRate, RateFigure(rate), ModerateRateAction)];
    }
    assert recs == RateRule(s);
    if s.executionMs > 3600000 {
      recs := recs + [Recommendation(Warning, LongTime, DurationFigure(s.executionMs), LongTimeAction)];
    }
    assert recs == RateRule(s) + TimeRule(s);
    if failedCount > 10 {
      recs := recs + [Recommendation(Warning, ManyFailed, CountFigure(failedCount), ManyFailedAction)];
    }
    assert recs == RateRule(s) + TimeRule(s) + FailedRule(failedCount);
    if s.totalTests < 50 {
      recs := recs + [Recommendation(Info, LowCoverage, CountFigure(s.totalTests), LowCoverageAction)];
    }
  }

  class Generator {
    const generatedAt: string
    var summary: Summary
    var suites: seq<SuiteRecord>
    var failed: seq<FailedTest>
    var performance: map<string, PerfMetric>
    var charts: seq<Chart>
    var recommendations: seq<Recommendation>

    function State(): ReportState
      reads this
    {
      ReportState(summary, suites, failed, performance, charts, recommendations)
    }

    constructor(generatedAt: string)
      ensures State() == InitialState && Consistent(State())
      ensures this.generatedAt == generatedAt
    {
      this.generatedAt := generatedAt;
      summary := InitialSummary;
      suites := [];
      failed := [];
      performance := map[];
      charts := [];
      recommendations := [];
    }

    /** _extract_test_statistics */
    method ExtractTestStatistics(root: Element) returns (outcome: Result<()>)
      modifies this
      ensures Applied(old(State()), StatisticsStep(old(State()), root), outcome, State())
    {
      var counts := ReadStatCounts(root);
      if counts.Err? {
        return Err(counts.error);
      }
      var (passed, failedCount) := counts.value;
      summary := summary.(passedTests := summary.passedTests + passed,
                          failedTests := summary.failedTests + failedCount,
                          totalTests := summary.totalTests + passed + failedCount);
      outcome := Ok(());
    }

    /** _extract_failed_tests: one entry appended per failing test. */
    method ExtractFailedTests(root: Element, file: string) returns (outcome: Result<()>)
      modifies this
      ensures Applied(old(State()), FailedStep(old(State()), root, file), outcome, State())
    {
      var suite := Find(root, "suite");
      var suiteName := if suite.Some? then Some(GetOr(suite.value, "name", "Unknown")) else None;
      var added := FailedTestsOf(FindAll(root, "test"), suiteName, file);
      if added.Err? {
        return Err(added.error);
      }
      failed := failed + added.value;
      outcome := Ok(());
    }

    /** _extract_performance_metrics */
    method ExtractPerformanceMetrics(root: Element, file: string) returns (outcome: Result<()>)
      modifies this
      ensures Applied(old(State()), PerfStep(old(State()), root, file), outcome, State())
    {
      outcome := Ok(());
      var suite := Find(root, "suite");
      if suite.Some? {
        var status := Find(suite.value, "status");
        if status.Some? {
          var elapsed := Get(status.value, "elapsed");
          if elapsed.Some? && elapsed.value != "" {
            assert RecordedElapsed(root) == elapsed;
            var parsed := ParseInt(elapsed.value);
            if parsed.Err? {
              return Err(parsed.error);
            }
            PerfStepParsed(State(), root, file, parsed.value);
            summary := summary.(executionMs := summary.executionMs + parsed.value);
            performance := performance[AfterLastSlash(file) := PerfMetric(parsed.value, |FindAll(root, "test")|)];
            return;
          }
        }
      }
      assert RecordedElapsed(root).None?;
    }

    /** _parse_single_xml_file: a step that raises ends the document. */
    method ParseSingleXmlFile(f: XmlFile)
      modifies this
      ensures State() == ParseDocument(old(State()), f)
    {
      if f.root.None? {
        return;
      }
      var root := f.root.value;
      var info := ExtractSuiteInfo(root, f.path);
      if info.Err? {
        return;
      }
      if info.value.Some? {
        suites := suites + [info.value.value];
      }
      assert State() == SuiteStep(old(State()), root, f.path).value;
      var outcome := ExtractTestStatistics(root);
      if outcome.Err? {
        return;
      }
      outcome := ExtractFailedTests(root, f.path);
      if outcome.Err? {
        return;
      }
      outcome := ExtractPerformanceMetrics(root, f.path);
    }

    /** _calculate_summary_statistics */
    method CalculateSummaryStatistics()
      modifies this
      ensures State() == CalculateSummary(old(State()))
    {
      var s := summary;
      var rate := s.successRate;
      if s.totalTests > 0 {
        rate := Rate(s.passedTests, s.totalTests);
      }
      var environments: set<string> := {};
      var browsers: set<string> := {};
      var names: set<string> := {};
      var all := suites;
      var i := 0;
      while i < |all|
        invariant 0 <= i <= |all|
        invariant environments == SuitesTags(all[..i], EnvironmentTags)
        invariant browsers == SuitesTags(all[..i], BrowserTags)
        invariant names == SuiteNames(all[..i])
        invariant State() == old(State())
      {
        assert all[..i + 1][..i] == all[..i];
        names := names + {all[i].name};
        environments, browsers := ClassifyTests(all[i].tests, environments, browsers);
        i := i + 1;
      }
      assert all[..i] == all;
      summary := s.(successRate := rate, environments := environments, browsers := browsers, testSuites := names);
    }

    /** parse_robot_output_files: with no files nothing is recalculated. */
    method ParseRobotOutputFiles(files: seq<XmlFile>)
      modifies this
      ensures State() == ParseFiles(old(State()), files)
      ensures old(Consistent(State())) ==> Consistent(State())
    {
      if files == [] {
        return;
      }
      var i := 0;
      while i < |files|
        invariant 0 <= i <= |files|
        invariant State() == ParseAll(old(State()), files[..i])
      {
        assert files[..i + 1][..i] == files[..i];
        ParseSingleXmlFile(files[i]);
        i := i + 1;
      }
      assert files[..i] == files;
      CalculateSummaryStatistics();
      if old(Consistent(State())) {
        ParseFilesConsistent(old(State()), files);
      }
    }

    /** generate_recommendations: the list is rebuilt and replaces the old one. */
    method GenerateRecommendations()
      modifies this
      ensures State() == RecommendStep(old(State()))
    {
      recommendations := BuildRecommendations(summary, |failed|);
    }

    /** generate_charts: nothing without plotting; otherwise the pie, time and
        suite charts, each recorded when it has data to show. */
    method GenerateCharts(plottingAvailable: bool)
      modifies this
      ensures State() == ChartsStep(old(State()), plottingAvailable)
    {
      if !plottingAvailable {
        return;
      }
      GeneratePieChart();
      GenerateExecutionTimeChart();
      GenerateSuiteChart();
    }

    /** _generate_test_results_pie_chart: nothing when no test passed or failed. */
    method GeneratePieChart()
      modifies this
      ensures State() == old(State()).(charts := old(charts) +
        (if old(summary.passedTests) == 0 && old(summary.failedTests) == 0 then [] else [PieChart]))
    {
      if summary.passedTests == 0 && summary.failedTests == 0 {
        return;
      }
      charts := charts + [PieChart];
    }

    /** _generate_execution_time_chart: nothing when no metric was recorded. */
    method GenerateExecutionTimeChart()
      modifies this
      ensures State() == old(State()).(charts := old(charts) + (if old(performance) == map[] then [] else [TimeChart]))
    {
      if performance == map[] {
        return;
      }
      charts := charts + [TimeChart];
    }

    /** _generate_test_suite_chart: nothing when no suite was found. */
    method GenerateSuiteChart()
      modifies this
      ensures State() == old(State()).(charts := old(charts) + (if old(suites) == [] then [] else [SuiteChart]))
    {
      if suites == [] {
        return;
      }
      charts := charts + [SuiteChart];
    }

    /** _generate_html_fallback: the page is appended section by section. */
    method GenerateHtmlFallback(environment: string, reportType: string) returns (html: Result<seq<HtmlBlock>>)
      ensures html == Fallback(State(), environment, reportType, generatedAt)
    {
      var page := [HeadOf(State(), environment, reportType, generatedAt)];
      page := AppendChartSection(page, charts);
      page := AppendSuiteSection(page, suites);
      var withFailed := AppendFailedSection(page, failed);
      if withFailed.Err? {
        return Err(withFailed.error);
      }
      page := AppendRecSection(withFailed.value, recommendations);
      page := page + [Tail];
      html := Ok(page);
    }

    /** generate_html_report with the fallback renderer: the recommendations are
        regenerated first, then the page is built. */
    method GenerateHtmlReport(environment: Option<string>, reportType: string)
      returns (reportFile: string, html: Result<seq<HtmlBlock>>)
      modifies this
      ensures State() == RecommendStep(old(State()))
      ensures reportFile == ReportFileName(reportType)
      ensures html == Fallback(State(), EnvironmentName(environment), reportType, generatedAt)
    {
      GenerateRecommendations();
      html := GenerateHtmlFallback(EnvironmentName(environment), reportType);
      reportFile := ReportFileName(reportType);
    }

    /** generate_complete_report: parse, chart, then render. */
    method GenerateCompleteReport(files: seq<XmlFile>, plottingAvailable: bool,
                                  environment: Option<string>, reportType: string)
      returns (reportFile: string, jsonFile: string, html: Result<seq<HtmlBlock>>)
      modifies this
      ensures State() == RecommendStep(ChartsStep(ParseFiles(old(State()), files), plottingAvailable))
      ensures reportFile == ReportFileName(reportType) && jsonFile == "test_results.json"
      ensures html == Fallback(State(), EnvironmentName(environment), reportType, generatedAt)
    {
      ParseRobotOutputFiles(files);
      GenerateCharts(plottingAvailable);
      reportFile, html := GenerateHtmlReport(environment, reportType);
      jsonFile := "test_results.json";
    }
  }
}
