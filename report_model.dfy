/** The data the report generator accumulates from Robot Framework output
    documents, and one specification function per extraction step. A step that
    raises in the generator (a non-integer `elapsed`, `pass` or `fail`
    attribute, or a failed test in a document without a suite) is an `Err`
    here; the document loop keeps whatever earlier steps of that document
    already stored. Times are integer milliseconds, as the `elapsed`
    attributes carry them. */
module ReportModel {
  import opened Base
  import opened ElementTree

  const EnvironmentTags: set<string> := {"dev", "production", "staging"}
  const BrowserTags: set<string> := {"chrome", "firefox", "edge", "safari"}

  datatype Keyword = Keyword(name: string, status: Option<string>)

  datatype TestRecord = TestRecord(
    name: string,
    status: string,
    message: string,
    tags: seq<Option<string>>,
    keywords: seq<Keyword>,
    executionMs: int,
    startTime: Option<string>,
    endTime: Option<string>)

  datatype SuiteStats = SuiteStats(total: nat, passed: nat, failed: nat, skipped: nat)

  datatype SuiteRecord = SuiteRecord(
    name: string,
    source: string,
    file: string,
    tests: seq<TestRecord>,
    statistics: SuiteStats,
    executionMs: int,
    startTime: Option<string>,
    endTime: Option<string>)

  datatype FailedTest = FailedTest(
    name: string,
    suite: string,
    message: string,
    file: string,
    tags: seq<Option<string>>)

  datatype PerfMetric = PerfMetric(executionMs: int, testCount: nat)

  datatype Summary = Summary(
    totalTests: int,
    passedTests: int,
    failedTests: int,
    skippedTests: int,
    errorTests: int,
    successRate: real,
    executionMs: int,
    environments: set<string>,
    browsers: set<string>,
    testSuites: set<string>)

  datatype Chart = Chart(name: string, file: string, kind: string)

  /** The number a recommendation's message reports. */
  datatype Figure = RateFigure(rate: real) | DurationFigure(ms: int) | CountFigure(count: int)

  /** The five recommendation rules, in the order they are applied. */
  datatype Rule = LowRate | ModerateRate | LongTime | ManyFailed | LowCoverage

  /** The `type` of a recommendation. */
  datatype Severity = Critical | Warning | Info

  datatype Recommendation = Recommendation(kind: Severity, rule: Rule, figure: Figure, action: string)

  /** Everything `report_data` holds that the generator changes after construction. */
  datatype ReportState = ReportState(
    summary: Summary,
    suites: seq<SuiteRecord>,
    failed: seq<FailedTest>,
    performance: map<string, PerfMetric>,
    charts: seq<Chart>,
    recommendations: seq<Recommendation>)

  /** A result file found under the input directory; `root` is None when it is not well-formed XML. */
  datatype XmlFile = XmlFile(path: string, root: Option<Element>)

  const InitialSummary := Summary(0, 0, 0, 0, 0, 0.0, 0, {}, {}, {})
  const InitialState := ReportState(InitialSummary, [], [], map[], [], [])

  // ---------------------------------------------------------------------------
  // Tests and suites

  /** The `elapsed` attribute of a status element; absent or empty means 0. */
  function ElapsedMs(status: Element): Result<int> {
    match Get(status, "elapsed")
    case None => Ok(0)
    case Some(e) => if e == "" then Ok(0) else ParseInt(e)
  }

  /** The texts of a list of tag elements. */
  function TagTexts(es: seq<Element>): (r: seq<Option<string>>)
    ensures |r| == |es|
    ensures forall k :: 0 <= k < |es| ==> r[k] == es[k].text
  {
    if es == [] then [] else TagTexts(es[..|es| - 1]) + [es[|es| - 1].text]
  }

  /** The tags of a test: the `tag` children of its first `tags` descendant. */
  function TagsOf(test: Element): seq<Option<string>> {
    match Find(test, "tags")
    case None => []
    case Some(te) => TagTexts(ChildrenNamed(te, "tag"))
  }

  function KeywordOf(kw: Element): Keyword {
    Keyword(
      GetOr(kw, "name", "Unknown"),
      match Find(kw, "status")
      case None => Some("UNKNOWN")
      case Some(s) => Get(s, "status"))
  }

  function KeywordsOf(kws: seq<Element>): (r: seq<Keyword>)
    ensures |r| == |kws|
    ensures forall k :: 0 <= k < |kws| ==> r[k] == KeywordOf(kws[k])
  {
    if kws == [] then [] else KeywordsOf(kws[..|kws| - 1]) + [KeywordOf(kws[|kws| - 1])]
  }

  /** The record for one test; its status is that of its first `status` descendant. */
  function TestInfo(test: Element): Result<TestRecord> {
    var name := GetOr(test, "name", "Unknown");
    var tags := TagsOf(test);
    var kws := KeywordsOf(FindAll(test, "kw"));
    match Find(test, "status")
    case None => Ok(TestRecord(name, "UNKNOWN", "", tags, kws, 0, None, None))
    case Some(s) =>
      var ms :- ElapsedMs(s);
      Ok(TestRecord(name, GetOr(s, "status", "UNKNOWN"), s.text.GetOr(""), tags, kws, ms,
                    Get(s, "starttime"), Get(s, "endtime")))
  }

  /** The records of a list of tests, or the first error among them. */
  function TestInfos(tests: seq<Element>): (r: Result<seq<TestRecord>>)
    ensures r.Ok? ==> |r.value| == |tests|
  {
    if tests == [] then Ok([])
    else
      var prev :- TestInfos(tests[..|tests| - 1]);
      var t :- TestInfo(tests[|tests| - 1]);
      Ok(prev + [t])
  }

  /** An error among the first `n` tests is the error of the whole list. */
  lemma {:induction false} TestInfosKeepsError(tests: seq<Element>, n: nat)
    requires n <= |tests|
    requires TestInfos(tests[..n]).Err?
    ensures TestInfos(tests) == TestInfos(tests[..n])
    decreases |tests|
  {
    if n < |tests| {
      var init := tests[..|tests| - 1];
      assert init[..n] == tests[..n];
      TestInfosKeepsError(init, n);
    } else {
      assert tests[..n] == tests;
    }
  }

  /** One more test read: its record is appended, or its error ends the list. */
  lemma TestInfosStep(tests: seq<Element>, i: int, prev: seq<TestRecord>)
    requires 0 <= i < |tests|
    requires TestInfos(tests[..i]) == Ok(prev)
    ensures TestInfo(tests[i]).Ok? ==> TestInfos(tests[..i + 1]) == Ok(prev + [TestInfo(tests[i]).value])
    ensures TestInfo(tests[i]).Err? ==> TestInfos(tests[..i + 1]) == Err(TestInfo(tests[i]).error)
  {
    var s := tests[..i + 1];
    assert s[..|s| - 1] == tests[..i];
    assert s[|s| - 1] == tests[i];
  }

  function Statuses(tests: seq<TestRecord>): (r: seq<string>)
    ensures |r| == |tests|
    ensures forall k :: 0 <= k < |tests| ==> r[k] == tests[k].status
  {
    if tests == [] then [] else Statuses(tests[..|tests| - 1]) + [tests[|tests| - 1].status]
  }

  /** One test counted: PASS and FAIL are counted as such, every other status
      (UNKNOWN included) as skipped. */
  function Tally(s: SuiteStats, status: string): SuiteStats {
    if status == "PASS" then s.(total := s.total + 1, passed := s.passed + 1)
    else if status == "FAIL" then s.(total := s.total + 1, failed := s.failed + 1)
    else s.(total := s.total + 1, skipped := s.skipped + 1)
  }

  /** Per-suite counters. */
  function StatsOf(tests: seq<TestRecord>): (r: SuiteStats)
    ensures r.total == |tests|
    ensures r.total == r.passed + r.failed + r.skipped
  {
    if tests == [] then SuiteStats(0, 0, 0, 0)
    else Tally(StatsOf(tests[..|tests| - 1]), tests[|tests| - 1].status)
  }

  /** The passed counter counts the tests with status PASS. */
  lemma {:induction false} StatsOfPassed(tests: seq<TestRecord>)
    ensures StatsOf(tests).passed == multiset(Statuses(tests))["PASS"]
    decreases |tests|
  {
    if tests != [] {
      var init := tests[..|tests| - 1];
      StatsOfPassed(init);
      assert Statuses(tests) == Statuses(init) + [tests[|tests| - 1].status];
    }
  }

  /** The failed counter counts the tests with status FAIL. */
  lemma {:induction false} StatsOfFailed(tests: seq<TestRecord>)
    ensures StatsOf(tests).failed == multiset(Statuses(tests))["FAIL"]
    decreases |tests|
  {
    if tests != [] {
      var init := tests[..|tests| - 1];
      StatsOfFailed(init);
      assert Statuses(tests) == Statuses(init) + [tests[|tests| - 1].status];
    }
  }

  /** One more record counted under its status. */
  lemma StatsOfStep(tests: seq<TestRecord>, t: TestRecord)
    ensures StatsOf(tests + [t]) == Tally(StatsOf(tests), t.status)
  {
    assert (tests + [t])[..|tests|] == tests;
  }

  /** The record of the first `suite` in the document, None when there is none. */
  function SuiteInfo(root: Element, file: string): Result<Option<SuiteRecord>> {
    match Find(root, "suite")
    case None => Ok(None)
    case Some(suite) =>
      var status := Find(suite, "status");
      var ms :- if status.Some? then ElapsedMs(status.value) else Ok(0);
      var tests :- TestInfos(FindAll(suite, "test"));
      Ok(Some(SuiteRecord(
        GetOr(suite, "name", "Unknown"), GetOr(suite, "source", file), file,
        tests, StatsOf(tests), ms,
        if status.Some? then Get(status.value, "starttime") else None,
        if status.Some? then Get(status.value, "endtime") else None)))
  }

  // ---------------------------------------------------------------------------
  // The four steps applied to each document

  function SuiteStep(st: ReportState, root: Element, file: string): Result<ReportState> {
    var info :- SuiteInfo(root, file);
    Ok(if info.Some? then st.(suites := st.suites + [info.value]) else st)
  }

  /** An attribute of the statistics element read as an integer; absent means 0. */
  function StatAttr(stat: Element, name: string): Result<int> {
    match Get(stat, name)
    case None => Ok(0)
    case Some(v) => ParseInt(v)
  }

  /** An attribute of the statistics element that is present but is not an integer. */
  predicate BadAttr(stat: Element, name: string) {
    Get(stat, name).Some? && ParseInt(Get(stat, name).value).Err?
  }

  /** The `pass` and `fail` counts of the document's first total statistics
      element; a document without one adds nothing, an absent attribute counts
      as 0 and a present one that is not an integer raises ValueError. */
  function StatCounts(root: Element): (r: Result<(int, int)>)
    ensures FindStat(root).None? ==> r == Ok((0, 0))
    ensures FindStat(root).Some? ==>
      (r.Err? <==> BadAttr(FindStat(root).value, "pass") || BadAttr(FindStat(root).value, "fail"))
    ensures r.Err? ==> r.error == ValueError
    ensures r.Ok? && FindStat(root).Some? ==>
      (Get(FindStat(root).value, "pass").None? ==> r.value.0 == 0) &&
      (Get(FindStat(root).value, "fail").None? ==> r.value.1 == 0) &&
      (Get(FindStat(root).value, "pass").Some? ==> ParseInt(Get(FindStat(root).value, "pass").value) == Ok(r.value.0)) &&
      (Get(FindStat(root).value, "fail").Some? ==> ParseInt(Get(FindStat(root).value, "fail").value) == Ok(r.value.1))
  {
    match FindStat(root)
    case None => Ok((0, 0))
    case Some(stat) =>
      var p :- StatAttr(stat, "pass");
      var f :- StatAttr(stat, "fail");
      Ok((p, f))
  }

  /** An attribute written as Robot Framework writes counts: the decimal digits
      of `n`, or left out when `n` is 0. */
  predicate WrittenCount(stat: Element, name: string, n: nat) {
    Get(stat, name) == Some(NatToString(n)) || (Get(stat, name).None? && n == 0)
  }

  /** Counts written as decimal digits (or left out) are read back exactly. */
  lemma StatCountsWritten(root: Element, p: nat, f: nat)
    requires FindStat(root).Some?
    requires WrittenCount(FindStat(root).value, "pass", p)
    requires WrittenCount(FindStat(root).value, "fail", f)
    ensures StatCounts(root) == Ok((p, f))
  {
    NatToStringRoundTrip(p);
    NatToStringRoundTrip(f);
  }

  /** The document's `pass`/`fail` totals added to the global counters. */
  function StatisticsStep(st: ReportState, root: Element): (r: Result<ReportState>)
    ensures r.Ok? <==> StatCounts(root).Ok?
    ensures r.Err? ==> r.error == StatCounts(root).error
    ensures r.Ok? ==>
      r.value.summary.passedTests == st.summary.passedTests + StatCounts(root).value.0 &&
      r.value.summary.failedTests == st.summary.failedTests + StatCounts(root).value.1 &&
      r.value.summary.totalTests == st.summary.totalTests + StatCounts(root).value.0 + StatCounts(root).value.1
    ensures r.Ok? ==> r.value == st.(summary := r.value.summary)
    ensures r.Ok? ==> r.value.summary == st.summary.(totalTests := r.value.summary.totalTests,
                                                      passedTests := r.value.summary.passedTests,
                                                      failedTests := r.value.summary.failedTests)
    ensures FindStat(root).None? ==> r == Ok(st)
  {
    var counts :- StatCounts(root);
    var s := st.summary;
    Ok(st.(summary := s.(passedTests := s.passedTests + counts.0,
                         failedTests := s.failedTests + counts.1,
                         totalTests := s.totalTests + counts.0 + counts.1)))
  }

  /** A test whose first status descendant says FAIL. */
  predicate IsFailing(test: Element) {
    var s := Find(test, "status");
    s.Some? && Get(s.value, "status") == Some("FAIL")
  }

  function FailedEntry(test: Element, suiteName: string, file: string): FailedTest {
    var s := Find(test, "status");
    var message := if s.Some? && s.value.text.Some? && s.value.text.value != "" then s.value.text.value
                   else "No error message";
    FailedTest(GetOr(test, "name", "Unknown"), suiteName, message, file, TagsOf(test))
  }

  /** One entry per failing test, in document order. */
  function FailedEntries(tests: seq<Element>, suiteName: string, file: string): (r: seq<FailedTest>)
    ensures |r| == |Filter(IsFailing, tests)|
    ensures forall k :: 0 <= k < |r| ==> r[k] == FailedEntry(Filter(IsFailing, tests)[k], suiteName, file)
  {
    if tests == [] then []
    else
      var prev := FailedEntries(tests[..|tests| - 1], suiteName, file);
      var t := tests[|tests| - 1];
      if IsFailing(t) then prev + [FailedEntry(t, suiteName, file)] else prev
  }

  /** The name every failed entry of a document carries: that of the document's
      first suite; None when the document has no suite. */
  function SuiteNameOf(root: Element): Option<string> {
    match Find(root, "suite")
    case None => None
    case Some(suite) => Some(GetOr(suite, "name", "Unknown"))
  }

  /** The entries the failing tests among `tests` add; without a suite the
      first failing test raises, since a missing suite has no name to read. */
  function FailedOf(tests: seq<Element>, suiteName: Option<string>, file: string): Result<seq<FailedTest>> {
    match suiteName
    case None => if Filter(IsFailing, tests) == [] then Ok([]) else Err(AttributeError)
    case Some(name) => Ok(FailedEntries(tests, name, file))
  }

  /** One more test considered. */
  lemma FailedOfStep(tests: seq<Element>, i: int, suiteName: Option<string>, file: string, prev: seq<FailedTest>)
    requires 0 <= i < |tests|
    requires FailedOf(tests[..i], suiteName, file) == Ok(prev)
    ensures !IsFailing(tests[i]) ==> FailedOf(tests[..i + 1], suiteName, file) == Ok(prev)
    ensures IsFailing(tests[i]) && suiteName.None? ==> FailedOf(tests[..i + 1], suiteName, file) == Err(AttributeError)
    ensures IsFailing(tests[i]) && suiteName.Some? ==>
      FailedOf(tests[..i + 1], suiteName, file) == Ok(prev + [FailedEntry(tests[i], suiteName.value, file)])
  {
    assert tests[..i + 1][..i] == tests[..i];
  }

  /** A failing test without a suite ends the whole document's list with the error. */
  lemma FailedOfKeepsError(tests: seq<Element>, n: int, suiteName: Option<string>, file: string)
    requires 0 <= n <= |tests|
    requires FailedOf(tests[..n], suiteName, file).Err?
    ensures FailedOf(tests, suiteName, file) == FailedOf(tests[..n], suiteName, file)
  {
    var f := Filter(IsFailing, tests[..n]);
    assert f[0] in f;
    assert tests[..n] + tests[n..] == tests;
    FilterConcat(IsFailing, tests[..n], tests[n..]);
    FilterKeeps(IsFailing, tests, f[0]);
  }

  /** The failed-test list extended with the document's failing tests. */
  function FailedStep(st: ReportState, root: Element, file: string): Result<ReportState> {
    var added :- FailedOf(FindAll(root, "test"), SuiteNameOf(root), file);
    Ok(st.(failed := st.failed + added))
  }

  /** The `elapsed` text of the first status inside the document's first suite,
      when it is present and not empty: the only case in which a metric is recorded. */
  function RecordedElapsed(root: Element): Option<string> {
    var suite := Find(root, "suite");
    if suite.None? then None
    else
      var status := Find(suite.value, "status");
      if status.None? then None
      else
        var e := Get(status.value, "elapsed");
        if e.Some? && e.value != "" then e else None
  }

  /** The suite's elapsed time added to the total and stored under the file's base name. */
  function PerfStep(st: ReportState, root: Element, file: string): (r: Result<ReportState>)
    ensures RecordedElapsed(root).None? ==> r == Ok(st)
    ensures RecordedElapsed(root).Some? ==> (r.Err? <==> ParseInt(RecordedElapsed(root).value).Err?)
    ensures r.Err? ==> r.error == ValueError
    ensures RecordedElapsed(root).Some? && r.Ok? ==>
      var ms := ParseInt(RecordedElapsed(root).value).value;
      r.value.summary.executionMs == st.summary.executionMs + ms &&
      r.value.performance == st.performance[AfterLastSlash(file) := PerfMetric(ms, |FindAll(root, "test")|)]
    ensures r.Ok? ==> r.value == st.(summary := r.value.summary, performance := r.value.performance)
    ensures r.Ok? ==> r.value.summary == st.summary.(executionMs := r.value.summary.executionMs)
  {
    match Find(root, "suite")
    case None => Ok(st)
    case Some(suite) =>
      match Find(suite, "status")
      case None => Ok(st)
      case Some(status) =>
        match Get(status, "elapsed")
        case None => Ok(st)
        case Some(e) =>
          if e == "" then Ok(st)
          else
            var ms :- ParseInt(e);
            Ok(st.(summary := st.summary.(executionMs := st.summary.executionMs + ms),
                   performance := st.performance[AfterLastSlash(file) := PerfMetric(ms, |FindAll(root, "test")|)]))
  }

  /** The effect of one document; a raising step leaves what the earlier steps stored. */
  function ParseDocument(st: ReportState, f: XmlFile): ReportState {
    match f.root
    case None => st
    case Some(root) =>
      match SuiteStep(st, root, f.path)
      case Err(_) => st
      case Ok(s1) =>
        match StatisticsStep(s1, root)
        case Err(_) => s1
        case Ok(s2) =>
          match FailedStep(s2, root, f.path)
          case Err(_) => s2
          case Ok(s3) =>
            match PerfStep(s3, root, f.path)
            case Err(_) => s3
            case Ok(s4) => s4
  }

  function ParseAll(st: ReportState, files: seq<XmlFile>): ReportState {
    if files == [] then st else ParseDocument(ParseAll(st, files[..|files| - 1]), files[|files| - 1])
  }

  // ---------------------------------------------------------------------------
  // Summary

  function Rate(passed: int, total: int): real
    requires total != 0
  {
    (passed as real / total as real) * 100.0
  }

  /** The tags among `tags` that belong to `names`. */
  function TagsIn(tags: seq<Option<string>>, names: set<string>): set<string> {
    if tags == [] then {}
    else
      var last := tags[|tags| - 1];
      TagsIn(tags[..|tags| - 1], names) + (if last.Some? && last.value in names then {last.value} else {})
  }

  /** The tags collected are exactly the listed names that occur among the tags. */
  lemma {:induction false} TagsInMeaning(tags: seq<Option<string>>, names: set<string>)
    ensures forall x :: x in TagsIn(tags, names) <==> x in names && Some(x) in tags
    decreases |tags|
  {
    if tags != [] {
      var last := tags[|tags| - 1];
      assert tags == tags[..|tags| - 1] + [last];
      TagsInMeaning(tags[..|tags| - 1], names);
    }
  }

  /** One more tag considered. */
  lemma TagsInStep(tags: seq<Option<string>>, k: int, names: set<string>)
    requires 0 <= k < |tags|
    ensures TagsIn(tags[..k + 1], names) ==
      TagsIn(tags[..k], names) + (if tags[k].Some? && tags[k].value in names then {tags[k].value} else {})
  {
    assert tags[..k + 1][..k] == tags[..k];
  }

  function TestsTags(tests: seq<TestRecord>, names: set<string>): set<string> {
    if tests == [] then {}
    else TestsTags(tests[..|tests| - 1], names) + TagsIn(tests[|tests| - 1].tags, names)
  }

  function SuitesTags(suites: seq<SuiteRecord>, names: set<string>): set<string> {
    if suites == [] then {}
    else SuitesTags(suites[..|suites| - 1], names) + TestsTags(suites[|suites| - 1].tests, names)
  }

  function SuiteNames(suites: seq<SuiteRecord>): (r: set<string>)
    ensures forall x :: x in r <==> exists k :: 0 <= k < |suites| && suites[k].name == x
  {
    if suites == [] then {}
    else
      var r := SuiteNames(suites[..|suites| - 1]) + {suites[|suites| - 1].name};
      assert forall k :: 0 <= k < |suites| - 1 ==> suites[..|suites| - 1][k] == suites[k];
      r
  }

  /** The rate (only when there are tests), the environment and browser tags
      and the suite names; every counter is left as it is. */
  function CalculateSummary(st: ReportState): (r: ReportState)
    ensures r == st.(summary := r.summary)
    ensures r.summary == st.summary.(successRate := r.summary.successRate,
                                     environments := r.summary.environments,
                                     browsers := r.summary.browsers,
                                     testSuites := r.summary.testSuites)
    ensures st.summary.totalTests > 0 ==>
      r.summary.successRate * (st.summary.totalTests as real) == (st.summary.passedTests as real) * 100.0
    ensures st.summary.totalTests <= 0 ==> r.summary.successRate == st.summary.successRate
  {
    var s := st.summary;
    var rate := if s.totalTests > 0 then Rate(s.passedTests, s.totalTests) else s.successRate;
    st.(summary := s.(successRate := rate,
                      environments := SuitesTags(st.suites, EnvironmentTags),
                      browsers := SuitesTags(st.suites, BrowserTags),
                      testSuites := SuiteNames(st.suites)))
  }

  /** The summary's environments and browsers are known tag names, and its
      suite names are exactly the names of the parsed suites. */
  lemma SummaryClassification(st: ReportState)
    ensures CalculateSummary(st).summary.environments <= EnvironmentTags
    ensures CalculateSummary(st).summary.browsers <= BrowserTags
    ensures forall x :: x in CalculateSummary(st).summary.testSuites <==>
      exists k :: 0 <= k < |st.suites| && st.suites[k].name == x
  {
    SuitesTagsWithin(st.suites, EnvironmentTags);
    SuitesTagsWithin(st.suites, BrowserTags);
  }

  /** parse_robot_output_files: no files leaves everything as it was, including the rate. */
  function ParseFiles(st: ReportState, files: seq<XmlFile>): ReportState {
    if files == [] then st else CalculateSummary(ParseAll(st, files))
  }

  // ---------------------------------------------------------------------------
  // Recommendations

  function RuleTitle(rule: Rule): string {
    match rule
    case LowRate => "Low Success Rate"
    case ModerateRate => "Moderate Success Rate"
    case LongTime => "Long Execution Time"
    case ManyFailed => "High Number of Failed Tests"
    case LowCoverage => "Low Test Coverage"
  }

  function SeverityName(kind: Severity): string {
    match kind
    case Critical => "critical"
    case Warning => "warning"
    case Info => "info"
  }

  /** The position of a rule in the fixed order the rules are applied in;
      the two success-rate rules share a place. */
  function Rank(rule: Rule): int {
    match rule
    case LowRate => 0
    case ModerateRate => 0
    case LongTime => 1
    case ManyFailed => 2
    case LowCoverage => 3
  }

  predicate HasRule(recs: seq<Recommendation>, rule: Rule) {
    exists k :: 0 <= k < |recs| && recs[k].rule == rule
  }

  const LowRateAction := "Review failed tests and fix underlying issues"
  const ModerateRateAction := "Analyze flaky tests and improve test reliability"
  const LongTimeAction := "Parallelize tests or optimize slow test cases"
  const ManyFailedAction := "Prioritize fixes based on test importance and failure frequency"
  const LowCoverageAction := "Add more comprehensive test cases for better coverage"

  function RateRule(s: Summary): seq<Recommendation> {
    if s.successRate < 70.0 then
      [Recommendation(Critical, LowRate, RateFigure(s.successRate),
                      LowRateAction)]
    else if s.successRate < 90.0 then
      [Recommendation(Warning, ModerateRate, RateFigure(s.successRate),
                      ModerateRateAction)]
    else []
  }

  function TimeRule(s: Summary): seq<Recommendation> {
    if s.executionMs > 3600000 then
      [Recommendation(Warning, LongTime, DurationFigure(s.executionMs),
                      LongTimeAction)]
    else []
  }

  function FailedRule(failedCount: nat): seq<Recommendation> {
    if failedCount > 10 then
      [Recommendation(Warning, ManyFailed, CountFigure(failedCount),
                      ManyFailedAction)]
    else []
  }

  function CoverageRule(s: Summary): seq<Recommendation> {
    if s.totalTests < 50 then
      [Recommendation(Info, LowCoverage, CountFigure(s.totalTests),
                      LowCoverageAction)]
    else []
  }

  /** generate_recommendations: the rules applied in their fixed order. */
  function Recommendations(s: Summary, failedCount: nat): seq<Recommendation> {
    RateRule(s) + TimeRule(s) + FailedRule(failedCount) + CoverageRule(s)
  }

  lemma HasRuleParts(s: Summary, failedCount: nat, rule: Rule)
    ensures HasRule(Recommendations(s, failedCount), rule) <==>
      HasRule(RateRule(s), rule) || HasRule(TimeRule(s), rule) ||
      HasRule(FailedRule(failedCount), rule) || HasRule(CoverageRule(s), rule)
  {
    var p1, p2, p3, p4 := RateRule(s), TimeRule(s), FailedRule(failedCount), CoverageRule(s);
    HasRuleConcat(p1, p2, rule);
    HasRuleConcat(p1 + p2, p3, rule);
    HasRuleConcat(p1 + p2 + p3, p4, rule);
  }

  /** The condition under which each rule fires. An hour is 3 600 000 ms. */
  predicate Fires(s: Summary, failedCount: nat, rule: Rule) {
    match rule
    case LowRate => s.successRate < 70.0
    case ModerateRate => 70.0 <= s.successRate < 90.0
    case LongTime => s.executionMs > 3600000
    case ManyFailed => failedCount > 10
    case LowCoverage => s.totalTests < 50
  }

  lemma HasRuleSingle(p: seq<Recommendation>, rule: Rule)
    requires |p| <= 1
    ensures HasRule(p, rule) <==> p != [] && p[0].rule == rule
  {
    if p != [] && p[0].rule == rule {
      assert p[0].rule == rule;
    }
  }

  /** Each rule fires exactly under its condition; in particular the two
      success-rate rules exclude each other. */
  lemma RecommendationConditions(s: Summary, failedCount: nat, rule: Rule)
    ensures HasRule(Recommendations(s, failedCount), rule) <==> Fires(s, failedCount, rule)
  {
    HasRuleParts(s, failedCount, rule);
    HasRuleSingle(RateRule(s), rule);
    HasRuleSingle(TimeRule(s), rule);
    HasRuleSingle(FailedRule(failedCount), rule);
    HasRuleSingle(CoverageRule(s), rule);
  }

  /** Only the low-rate recommendation is critical. */
  lemma RecommendationKinds(s: Summary, failedCount: nat)
    ensures var r := Recommendations(s, failedCount);
      forall k :: 0 <= k < |r| ==> (r[k].kind == Critical <==> r[k].rule == LowRate)
  {
    var p1, p2, p3, p4 := RateRule(s), TimeRule(s), FailedRule(failedCount), CoverageRule(s);
    var r := p1 + p2 + p3 + p4;
    assert forall k :: 0 <= k < |r| ==> r[k] in p1 || r[k] in p2 || r[k] in p3 || r[k] in p4;
  }

  /** The rules come in their fixed order, at most one per place. */
  lemma RecommendationOrder(s: Summary, failedCount: nat)
    ensures var r := Recommendations(s, failedCount);
      forall i, j :: 0 <= i < j < |r| ==> Rank(r[i].rule) < Rank(r[j].rule)
  {
    var p1, p2, p3, p4 := RateRule(s), TimeRule(s), FailedRule(failedCount), CoverageRule(s);
    var r := p1 + p2 + p3 + p4;
    assert forall k :: 0 <= k < |r| ==> r[k] in p1 || r[k] in p2 || r[k] in p3 || r[k] in p4;
  }

  lemma HasRuleConcat(a: seq<Recommendation>, b: seq<Recommendation>, rule: Rule)
    ensures HasRule(a + b, rule) <==> HasRule(a, rule) || HasRule(b, rule)
  {
    if HasRule(a + b, rule) {
      var k :| 0 <= k < |a + b| && (a + b)[k].rule == rule;
      if k >= |a| {
        assert b[k - |a|].rule == rule;
      }
    }
    if HasRule(a, rule) {
      var k :| 0 <= k < |a| && a[k].rule == rule;
      assert (a + b)[k].rule == rule;
    }
    if HasRule(b, rule) {
      var k :| 0 <= k < |b| && b[k].rule == rule;
      assert (a + b)[|a| + k].rule == rule;
    }
  }

  function RecommendStep(st: ReportState): ReportState {
    st.(recommendations := Recommendations(st.summary, |st.failed|))
  }

  // ---------------------------------------------------------------------------
  // Charts (the plotting itself is not modelled; only which charts are recorded)

  const PieChart := Chart("Test Results Distribution", "test_results_pie.png", "pie")
  const TimeChart := Chart("Execution Time by Test File", "execution_time_chart.png", "bar")
  const SuiteChart := Chart("Test Results by Suite", "test_suite_comparison.png", "bar")

  /** The place of each chart in the order generate_charts draws them. */
  function ChartRank(c: Chart): int {
    if c == PieChart then 0 else if c == TimeChart then 1 else 2
  }

  /** The charts generate_charts records when plotting is available: the pie
      chart, the time chart and the suite chart, each only when it has data. */
  function NewCharts(st: ReportState): seq<Chart> {
    (if st.summary.passedTests == 0 && st.summary.failedTests == 0 then [] else [PieChart])
    + (if st.performance == map[] then [] else [TimeChart])
    + (if st.suites == [] then [] else [SuiteChart])
  }

  /** Which charts are recorded, and in which order. */
  lemma NewChartsMeaning(st: ReportState)
    ensures |NewCharts(st)| <= 3
    ensures PieChart in NewCharts(st) <==> !(st.summary.passedTests == 0 && st.summary.failedTests == 0)
    ensures TimeChart in NewCharts(st) <==> st.performance != map[]
    ensures SuiteChart in NewCharts(st) <==> st.suites != []
    ensures forall k :: 0 <= k < |NewCharts(st)| ==>
      NewCharts(st)[k] == PieChart || NewCharts(st)[k] == TimeChart || NewCharts(st)[k] == SuiteChart
    ensures forall i, j :: 0 <= i < j < |NewCharts(st)| ==> ChartRank(NewCharts(st)[i]) < ChartRank(NewCharts(st)[j])
  {
    assert PieChart.kind != TimeChart.kind && PieChart.kind != SuiteChart.kind;
    assert TimeChart.file != SuiteChart.file;
  }

  /** generate_charts: nothing without plotting; otherwise the pie, time and
      suite charts are appended, each when it has data to show. */
  function ChartsStep(st: ReportState, plottingAvailable: bool): (r: ReportState)
    ensures r == st.(charts := r.charts)
    ensures !plottingAvailable ==> r == st
    ensures plottingAvailable ==> r.charts == st.charts + NewCharts(st)
  {
    if !plottingAvailable then st
    else st.(charts := st.charts + NewCharts(st))
  }

  /** Recording charts keeps the earlier ones and adds at most three, exactly
      those with data, in the fixed order. */
  lemma ChartsAdded(st: ReportState, plottingAvailable: bool)
    requires plottingAvailable
    ensures var r := ChartsStep(st, plottingAvailable);
      var added := r.charts[|st.charts|..];
      r.charts[..|st.charts|] == st.charts && |added| <= 3 &&
      (PieChart in added <==> !(st.summary.passedTests == 0 && st.summary.failedTests == 0)) &&
      (TimeChart in added <==> st.performance != map[]) &&
      (SuiteChart in added <==> st.suites != []) &&
      (forall i, j :: 0 <= i < j < |added| ==> ChartRank(added[i]) < ChartRank(added[j]))
  {
    var r := ChartsStep(st, plottingAvailable);
    assert r.charts[|st.charts|..] == NewCharts(st);
    assert r.charts[..|st.charts|] == st.charts;
    NewChartsMeaning(st);
  }

  // ---------------------------------------------------------------------------
  // Lemmas

  /** The accumulated state keeps its counters balanced. */
  predicate Consistent(st: ReportState) {
    st.summary.totalTests == st.summary.passedTests + st.summary.failedTests &&
    st.summary.skippedTests == 0 && st.summary.errorTests == 0 &&
    forall k :: 0 <= k < |st.suites| ==> st.suites[k].statistics == StatsOf(st.suites[k].tests)
  }

  lemma InitialConsistent()
    ensures Consistent(InitialState)
  {
  }

  lemma ParseDocumentConsistent(st: ReportState, f: XmlFile)
    requires Consistent(st)
    ensures Consistent(ParseDocument(st, f))
  {
    match f.root
    case None =>
    case Some(root) =>
      match SuiteStep(st, root, f.path)
      case Err(_) =>
      case Ok(s1) =>
        assert Consistent(s1) by {
          var info := SuiteInfo(root, f.path);
          if info.value.Some? {
            assert s1.suites == st.suites + [info.value.value];
          }
        }
        match StatisticsStep(s1, root)
        case Err(_) =>
        case Ok(s2) =>
          assert s2.suites == s1.suites;
          match FailedStep(s2, root, f.path)
          case Err(_) =>
          case Ok(s3) =>
            match PerfStep(s3, root, f.path)
            case Err(_) =>
            case Ok(s4) =>
  }

  lemma {:induction false} ParseAllConsistent(st: ReportState, files: seq<XmlFile>)
    requires Consistent(st)
    ensures Consistent(ParseAll(st, files))
    decreases |files|
  {
    if files != [] {
      ParseAllConsistent(st, files[..|files| - 1]);
      ParseDocumentConsistent(ParseAll(st, files[..|files| - 1]), files[|files| - 1]);
    }
  }

  /** After any number of documents: total == passed + failed, skipped and
      error stay 0, every suite's total == passed + failed + skipped, and the
      rate is passed/total*100 whenever there is a test. */
  lemma ParseFilesConsistent(st: ReportState, files: seq<XmlFile>)
    requires Consistent(st)
    ensures Consistent(ParseFiles(st, files))
  {
    ParseAllConsistent(st, files);
    if files != [] {
      CalculateSummaryConsistent(ParseAll(st, files));
    }
  }

  lemma CalculateSummaryConsistent(st: ReportState)
    requires Consistent(st)
    ensures Consistent(CalculateSummary(st))
  {
    var r := CalculateSummary(st);
    assert r.suites == st.suites;
    assert r.summary.totalTests == st.summary.totalTests;
    assert r.summary.passedTests == st.summary.passedTests;
    assert r.summary.failedTests == st.summary.failedTests;
    assert r.summary.skippedTests == st.summary.skippedTests;
    assert r.summary.errorTests == st.summary.errorTests;
  }

  /** The rate thresholds stated on integers. */
  lemma RateBelowIff(passed: int, total: int, bound: int)
    requires total > 0
    ensures Rate(passed, total) < bound as real <==> passed * 100 < bound * total
  {
    var r := Rate(passed, total);
    var t := total as real;
    assert r * t == passed as real * 100.0;
    if r < bound as real {
      assert r * t < bound as real * t;
    } else {
      assert r * t >= bound as real * t;
    }
  }

  lemma {:induction false} TestsTagsIff(tests: seq<TestRecord>, names: set<string>, x: string)
    ensures x in TestsTags(tests, names) <==>
      x in names && exists j :: 0 <= j < |tests| && Some(x) in tests[j].tags
    decreases |tests|
  {
    if tests != [] {
      var init := tests[..|tests| - 1];
      TestsTagsIff(init, names, x);
      TagsInMeaning(tests[|tests| - 1].tags, names);
      assert forall j :: 0 <= j < |init| ==> init[j] == tests[j];
      if x in names && exists j :: 0 <= j < |tests| && Some(x) in tests[j].tags {
        var j :| 0 <= j < |tests| && Some(x) in tests[j].tags;
        if j < |init| {
          assert Some(x) in init[j].tags;
        }
      }
    }
  }

  /** The tag classification both ways: a name is collected iff it is one of
      `names` and some test of some suite carries it. */
  lemma {:induction false} SuitesTagsIff(suites: seq<SuiteRecord>, names: set<string>, x: string)
    ensures x in SuitesTags(suites, names) <==>
      x in names && exists i, j :: 0 <= i < |suites| && 0 <= j < |suites[i].tests| && Some(x) in suites[i].tests[j].tags
    decreases |suites|
  {
    if suites != [] {
      var init := suites[..|suites| - 1];
      var last := suites[|suites| - 1];
      SuitesTagsIff(init, names, x);
      TestsTagsIff(last.tests, names, x);
      assert forall i :: 0 <= i < |init| ==> init[i] == suites[i];
      if x in names && exists i, j :: 0 <= i < |suites| && 0 <= j < |suites[i].tests| && Some(x) in suites[i].tests[j].tags {
        var i, j :| 0 <= i < |suites| && 0 <= j < |suites[i].tests| && Some(x) in suites[i].tests[j].tags;
        if i < |init| {
          assert Some(x) in init[i].tests[j].tags;
        }
      }
    }
  }

  lemma SuitesTagsWithin(suites: seq<SuiteRecord>, names: set<string>)
    ensures SuitesTags(suites, names) <= names
  {
    forall x | x in SuitesTags(suites, names) ensures x in names {
      SuitesTagsIff(suites, names, x);
    }
  }

  /** Environment and browser tags never mix, and other tags are ignored. */
  lemma ClassificationDisjoint(st: ReportState)
    ensures var r := CalculateSummary(st).summary;
      r.environments !! r.browsers &&
      forall x :: x in r.environments ==>
        exists i, j :: 0 <= i < |st.suites| && 0 <= j < |st.suites[i].tests| && Some(x) in st.suites[i].tests[j].tags
  {
    var r := CalculateSummary(st).summary;
    SummaryClassification(st);
    forall x | x in r.environments
      ensures exists i, j :: 0 <= i < |st.suites| && 0 <= j < |st.suites[i].tests| && Some(x) in st.suites[i].tests[j].tags
    {
      SuitesTagsIff(st.suites, EnvironmentTags, x);
    }
  }

  /** The failed list grows by exactly one entry per failing test in the document, when the step succeeds. */
  lemma FailedStepCount(st: ReportState, root: Element, file: string)
    requires FailedStep(st, root, file).Ok?
    ensures var r := FailedStep(st, root, file).value;
      |r.failed| == |st.failed| + |Filter(IsFailing, FindAll(root, "test"))| &&
      r.failed[..|st.failed|] == st.failed
  {
  }

  /** Calling the recommendation step twice gives the same list as calling it once. */
  lemma RecommendIdempotent(st: ReportState)
    ensures RecommendStep(RecommendStep(st)) == RecommendStep(st)
  {
  }

  /** A metric whose elapsed text is written as decimal digits is recorded with exactly that many milliseconds. */
  lemma PerfStepWritten(st: ReportState, root: Element, file: string, ms: nat)
    requires RecordedElapsed(root) == Some(NatToString(ms))
    ensures PerfStep(st, root, file) ==
      Ok(st.(summary := st.summary.(executionMs := st.summary.executionMs + ms),
             performance := st.performance[AfterLastSlash(file) := PerfMetric(ms, |FindAll(root, "test")|)]))
  {
    NatToStringRoundTrip(ms);
  }

  /** One step over a document whose elapsed time parses to ms. */
  lemma PerfStepParsed(st: ReportState, root: Element, file: string, ms: int)
    requires RecordedElapsed(root).Some? && ParseInt(RecordedElapsed(root).value) == Ok(ms)
    ensures PerfStep(st, root, file) ==
      Ok(st.(summary := st.summary.(executionMs := st.summary.executionMs + ms),
             performance := st.performance[AfterLastSlash(file) := PerfMetric(ms, |FindAll(root, "test")|)]))
  {
  }

  /** A later file with the same base name overwrites the earlier file's
      metric, while the total time keeps both files' times. */
  lemma PerfOverwrite(st: ReportState, root1: Element, root2: Element, file1: string, file2: string, ms1: int, ms2: int)
    requires AfterLastSlash(file1) == AfterLastSlash(file2)
    requires RecordedElapsed(root1).Some? && ParseInt(RecordedElapsed(root1).value) == Ok(ms1)
    requires RecordedElapsed(root2).Some? && ParseInt(RecordedElapsed(root2).value) == Ok(ms2)
    ensures PerfStep(st, root1, file1).Ok?
    ensures PerfStep(PerfStep(st, root1, file1).value, root2, file2).Ok?
    ensures var r := PerfStep(PerfStep(st, root1, file1).value, root2, file2).value;
      r.summary.executionMs == st.summary.executionMs + ms1 + ms2 &&
      r.performance == st.performance[AfterLastSlash(file2) := PerfMetric(ms2, |FindAll(root2, "test")|)]
  {
    var key := AfterLastSlash(file2);
    var m1 := PerfMetric(ms1, |FindAll(root1, "test")|);
    var m2 := PerfMetric(ms2, |FindAll(root2, "test")|);
    PerfStepParsed(st, root1, file1, ms1);
    var s1 := st.(summary := st.summary.(executionMs := st.summary.executionMs + ms1),
                  performance := st.performance[key := m1]);
    assert PerfStep(st, root1, file1) == Ok(s1);
    PerfStepParsed(s1, root2, file2, ms2);
    var s2 := s1.(summary := s1.summary.(executionMs := s1.summary.executionMs + ms2),
                  performance := s1.performance[key := m2]);
    assert PerfStep(s1, root2, file2) == Ok(s2);
    MapOverwrite(st.performance, key, m1, m2);
  }

  lemma MapOverwrite<K, V>(m: map<K, V>, k: K, a: V, b: V)
    ensures m[k := a][k := b] == m[k := b]
  {
  }
}
