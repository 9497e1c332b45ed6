/** The fallback HTML report and the chart axis labels. The page is a sequence
    of blocks, one per piece of markup the generator appends; each block carries
    the values interpolated into that piece. The style sheet and the fixed markup
    around the values are not reproduced. */
module ReportHtml {
  import opened Base
  import opened ReportModel

  datatype HtmlBlock =
    | Head(reportType: string, environment: string, generatedAt: string,
           totalTests: int, passedTests: int, failedTests: int, successRate: real, executionMs: int)
    | ChartsOpen
    | ChartCard(name: string, src: string)
    | ChartsClose
    | SuitesOpen
    | SuiteRow(name: string, total: int, passed: int, failed: int, successRate: real, executionMs: int)
    | SuitesClose
    | FailedOpen
    | FailedCard(name: string, suite: string, message: string, tags: string)
    | FailedClose
    | RecsOpen
    | RecCard(kind: string, title: string, figure: Figure, action: string)
    | RecsClose
    | Tail

  const ChartsDir := "charts"

  // ---------------------------------------------------------------------------
  // Chart labels

  /** A label cut to `n` characters with "..." appended when it is longer. */
  function Truncate(s: string, n: nat): (r: string)
    ensures |s| <= n ==> r == s
    ensures |s| > n ==> |r| == n + 3 && r[..n] == s[..n] && r[n..] == "..."
    ensures |r| <= n + 3
  {
    if |s| > n then s[..n] + "..." else s
  }

  /** The x-axis label of a file in the execution-time chart. */
  function FileLabel(file: string): string {
    Truncate(file, 20)
  }

  /** The x-axis labels of the suite comparison chart, one per suite. */
  function SuiteLabels(suites: seq<SuiteRecord>): (r: seq<string>)
    ensures |r| == |suites|
    ensures forall k :: 0 <= k < |suites| ==> r[k] == Truncate(suites[k].name, 15)
  {
    if suites == [] then []
    else SuiteLabels(suites[..|suites| - 1]) + [Truncate(suites[|suites| - 1].name, 15)]
  }

  // ---------------------------------------------------------------------------
  // Values shown in the page

  /** The success rate of one suite row; a suite without tests shows 0. */
  function SuiteRate(stats: SuiteStats): real {
    if stats.total > 0 then (stats.passed as real / stats.total as real) * 100.0 else 0.0
  }

  /** The suite rate is the percentage of passed tests, between 0 and 100, and
      0 for a suite without tests rather than a division by zero. */
  lemma SuiteRateMeaning(stats: SuiteStats)
    ensures stats.total == 0 ==> SuiteRate(stats) == 0.0
    ensures stats.total > 0 ==> SuiteRate(stats) * (stats.total as real) == (stats.passed as real) * 100.0
    ensures 0.0 <= SuiteRate(stats)
    ensures stats.passed <= stats.total ==> SuiteRate(stats) <= 100.0
  {
    if stats.total > 0 {
      var t := stats.total as real;
      var p := stats.passed as real;
      assert SuiteRate(stats) == (p / t) * 100.0;
      assert (p / t) * t == p;
      if stats.passed <= stats.total {
        assert p / t <= 1.0;
      }
    }
  }

  /** ', '.join(tags); a tag without text makes join raise. */
  function JoinTags(tags: seq<Option<string>>): (r: Result<string>)
    ensures r.Ok? <==> forall k :: 0 <= k < |tags| ==> tags[k].Some?
    ensures r.Err? ==> r == Err(TypeError)
    ensures |tags| == 1 && tags[0].Some? ==> r == Ok(tags[0].value)
  {
    if tags == [] then Ok("")
    else
      var init := tags[..|tags| - 1];
      var last := tags[|tags| - 1];
      assert forall k :: 0 <= k < |init| ==> init[k] == tags[k];
      if last.None? then Err(TypeError)
      else if init == [] then Ok(last.value)
      else
        var prev :- JoinTags(init);
        Ok(prev + ", " + last.value)
  }

  /** The tags line of a failed-test card: "None" for an empty list. */
  function TagsText(tags: seq<Option<string>>): (r: Result<string>)
    ensures tags == [] ==> r == Ok("None")
    ensures r.Ok? <==> forall k :: 0 <= k < |tags| ==> tags[k].Some?
    ensures r.Err? ==> r == Err(TypeError)
  {
    if tags == [] then Ok("None") else JoinTags(tags)
  }

  /** `environment or "unknown"` */
  function EnvironmentName(environment: Option<string>): (r: string)
    ensures r != ""
  {
    if environment.None? || environment.value == "" then "unknown" else environment.value
  }

  function ReportFileName(reportType: string): string {
    "wordmate_test_report_" + reportType + ".html"
  }

  // ---------------------------------------------------------------------------
  // Sections

  function HeadOf(st: ReportState, environment: string, reportType: string, generatedAt: string): HtmlBlock {
    Head(Title(reportType), Title(environment), generatedAt,
         st.summary.totalTests, st.summary.passedTests, st.summary.failedTests,
         st.summary.successRate, st.summary.executionMs)
  }

  function ChartCardOf(c: Chart): HtmlBlock {
    ChartCard(c.name, ChartsDir + "/" + c.file)
  }

  function ChartCards(charts: seq<Chart>): (r: seq<HtmlBlock>)
    ensures |r| == |charts|
    ensures forall k :: 0 <= k < |r| ==> r[k] == ChartCardOf(charts[k])
  {
    if charts == [] then [] else ChartCards(charts[..|charts| - 1]) + [ChartCardOf(charts[|charts| - 1])]
  }

  function SuiteRowOf(s: SuiteRecord): HtmlBlock {
    SuiteRow(s.name, s.statistics.total, s.statistics.passed, s.statistics.failed,
             SuiteRate(s.statistics), s.executionMs)
  }

  function SuiteRows(suites: seq<SuiteRecord>): (r: seq<HtmlBlock>)
    ensures |r| == |suites|
    ensures forall k :: 0 <= k < |r| ==> r[k] == SuiteRowOf(suites[k])
  {
    if suites == [] then [] else SuiteRows(suites[..|suites| - 1]) + [SuiteRowOf(suites[|suites| - 1])]
  }

  function FailedCardOf(f: FailedTest, tags: string): HtmlBlock {
    FailedCard(f.name, f.suite, f.message, tags)
  }

  function FailedCards(failed: seq<FailedTest>): (r: Result<seq<HtmlBlock>>)
    ensures r.Ok? <==> forall k :: 0 <= k < |failed| ==> TagsText(failed[k].tags).Ok?
    ensures r.Err? ==> r == Err(TypeError)
    ensures r.Ok? ==> |r.value| == |failed|
    ensures r.Ok? ==>
      forall k :: 0 <= k < |failed| ==> r.value[k] == FailedCardOf(failed[k], TagsText(failed[k].tags).value)
  {
    if failed == [] then Ok([])
    else
      var init := failed[..|failed| - 1];
      var last := failed[|failed| - 1];
      assert forall k :: 0 <= k < |init| ==> init[k] == failed[k];
      var prev :- FailedCards(init);
      var tags :- TagsText(last.tags);
      Ok(prev + [FailedCardOf(last, tags)])
  }

  function RecCardOf(rec: Recommendation): HtmlBlock {
    RecCard(SeverityName(rec.kind), RuleTitle(rec.rule), rec.figure, rec.action)
  }

  function RecCards(recs: seq<Recommendation>): (r: seq<HtmlBlock>)
    ensures |r| == |recs|
    ensures forall k :: 0 <= k < |r| ==> r[k] == RecCardOf(recs[k])
  {
    if recs == [] then [] else RecCards(recs[..|recs| - 1]) + [RecCardOf(recs[|recs| - 1])]
  }

  function ChartSection(charts: seq<Chart>): seq<HtmlBlock> {
    if charts == [] then [] else [ChartsOpen] + ChartCards(charts) + [ChartsClose]
  }

  function SuiteSection(suites: seq<SuiteRecord>): seq<HtmlBlock>
  {
    if suites == [] then [] else [SuitesOpen] + SuiteRows(suites) + [SuitesClose]
  }

  function FailedSection(failed: seq<FailedTest>): Result<seq<HtmlBlock>> {
    if failed == [] then Ok([])
    else
      var cards :- FailedCards(failed);
      Ok([FailedOpen] + cards + [FailedClose])
  }

  function RecSection(recs: seq<Recommendation>): seq<HtmlBlock> {
    if recs == [] then [] else [RecsOpen] + RecCards(recs) + [RecsClose]
  }

  /** _generate_html_fallback: the head, then the charts, suites, failed-tests
      and recommendations sections, then the tail. */
  function Fallback(st: ReportState, environment: string, reportType: string, generatedAt: string): Result<seq<HtmlBlock>>
  {
    match FailedSection(st.failed)
    case Err(e) => Err(e)
    case Ok(failed) => Ok(Page(st, environment, reportType, generatedAt, failed))
  }

  function Page(st: ReportState, environment: string, reportType: string, generatedAt: string,
                failed: seq<HtmlBlock>): seq<HtmlBlock>
  {
    [HeadOf(st, environment, reportType, generatedAt)] + ChartSection(st.charts) + SuiteSection(st.suites) +
    failed + RecSection(st.recommendations) + [Tail]
  }

  // ---------------------------------------------------------------------------
  // Properties of the page

  /** The page fails exactly when a failed test has a tag without text. */
  lemma FallbackFailsIff(st: ReportState, environment: string, reportType: string, generatedAt: string)
    ensures Fallback(st, environment, reportType, generatedAt).Err? <==>
      exists k, j :: 0 <= k < |st.failed| && 0 <= j < |st.failed[k].tags| && st.failed[k].tags[j].None?
    ensures Fallback(st, environment, reportType, generatedAt).Err? ==>
      Fallback(st, environment, reportType, generatedAt) == Err(TypeError)
  {
    if exists k, j :: 0 <= k < |st.failed| && 0 <= j < |st.failed[k].tags| && st.failed[k].tags[j].None? {
      var k, j :| 0 <= k < |st.failed| && 0 <= j < |st.failed[k].tags| && st.failed[k].tags[j].None?;
      assert TagsText(st.failed[k].tags).Err?;
    }
  }

  /** The section a block belongs to: 0 head, 1 charts, 2 suites, 3 failed tests, 4 recommendations, 5 tail. */
  function SectionOf(b: HtmlBlock): int {
    match b
    case Head(_, _, _, _, _, _, _, _) => 0
    case ChartsOpen => 1
    case ChartCard(_, _) => 1
    case ChartsClose => 1
    case SuitesOpen => 2
    case SuiteRow(_, _, _, _, _, _) => 2
    case SuitesClose => 2
    case FailedOpen => 3
    case FailedCard(_, _, _, _) => 3
    case FailedClose => 3
    case RecsOpen => 4
    case RecCard(_, _, _, _) => 4
    case RecsClose => 4
    case Tail => 5
  }

  lemma ChartSectionShape(charts: seq<Chart>)
    ensures forall b :: b in ChartSection(charts) ==> SectionOf(b) == 1
    ensures ChartsOpen in ChartSection(charts) <==> charts != []
  {
    if charts != [] { assert ChartSection(charts)[0] == ChartsOpen; }
  }

  lemma SuiteSectionShape(suites: seq<SuiteRecord>)
    ensures forall b :: b in SuiteSection(suites) ==> SectionOf(b) == 2
    ensures SuitesOpen in SuiteSection(suites) <==> suites != []
  {
    if suites != [] { assert SuiteSection(suites)[0] == SuitesOpen; }
  }

  lemma FailedSectionShape(failed: seq<FailedTest>)
    requires FailedSection(failed).Ok?
    ensures forall b :: b in FailedSection(failed).value ==> SectionOf(b) == 3
    ensures FailedOpen in FailedSection(failed).value <==> failed != []
  {
    if failed != [] {
      var cards := FailedCards(failed).value;
      assert forall b :: b in cards ==> b.FailedCard?;
      assert FailedSection(failed).value[0] == FailedOpen;
    }
  }

  lemma RecSectionShape(recs: seq<Recommendation>)
    ensures forall b :: b in RecSection(recs) ==> SectionOf(b) == 4
    ensures RecsOpen in RecSection(recs) <==> recs != []
  {
    if recs != [] {
      var cards := RecCards(recs);
      assert forall k :: 0 <= k < |cards| ==> cards[k].RecCard?;
      assert RecSection(recs) == [RecsOpen] + cards + [RecsClose];
      assert RecSection(recs)[0] == RecsOpen;
    }
  }

  /** A block of section `n` lies in a page built from per-section parts iff it lies in part `n`. */
  lemma InPage(head: seq<HtmlBlock>, charts: seq<HtmlBlock>, suites: seq<HtmlBlock>,
               failed: seq<HtmlBlock>, recs: seq<HtmlBlock>, x: HtmlBlock)
    requires forall b :: b in head ==> SectionOf(b) == 0
    requires forall b :: b in charts ==> SectionOf(b) == 1
    requires forall b :: b in suites ==> SectionOf(b) == 2
    requires forall b :: b in failed ==> SectionOf(b) == 3
    requires forall b :: b in recs ==> SectionOf(b) == 4
    ensures var page := head + charts + suites + failed + recs + [Tail];
      (SectionOf(x) == 1 ==> (x in page <==> x in charts)) &&
      (SectionOf(x) == 2 ==> (x in page <==> x in suites)) &&
      (SectionOf(x) == 3 ==> (x in page <==> x in failed)) &&
      (SectionOf(x) == 4 ==> (x in page <==> x in recs))
  {
  }

  /** Each optional section opens iff its list is non-empty. */
  lemma SectionsPresentIff(st: ReportState, environment: string, reportType: string, generatedAt: string)
    requires Fallback(st, environment, reportType, generatedAt).Ok?
    ensures ChartsOpen in Fallback(st, environment, reportType, generatedAt).value <==> st.charts != []
    ensures SuitesOpen in Fallback(st, environment, reportType, generatedAt).value <==> st.suites != []
    ensures FailedOpen in Fallback(st, environment, reportType, generatedAt).value <==> st.failed != []
    ensures RecsOpen in Fallback(st, environment, reportType, generatedAt).value <==> st.recommendations != []
  {
    var failed := FailedSection(st.failed).value;
    assert Fallback(st, environment, reportType, generatedAt).value == Page(st, environment, reportType, generatedAt, failed);
    ChartsPresent(st, environment, reportType, generatedAt);
    SuitesPresent(st, environment, reportType, generatedAt);
    FailedPresent(st, environment, reportType, generatedAt);
    RecsPresent(st, environment, reportType, generatedAt);
  }

  lemma ChartsPresent(st: ReportState, environment: string, reportType: string, generatedAt: string)
    requires FailedSection(st.failed).Ok?
    ensures ChartsOpen in Page(st, environment, reportType, generatedAt, FailedSection(st.failed).value) <==> st.charts != []
  {
    PageSections(st, environment, reportType, generatedAt, ChartsOpen);
  }

  lemma SuitesPresent(st: ReportState, environment: string, reportType: string, generatedAt: string)
    requires FailedSection(st.failed).Ok?
    ensures SuitesOpen in Page(st, environment, reportType, generatedAt, FailedSection(st.failed).value) <==> st.suites != []
  {
    PageSections(st, environment, reportType, generatedAt, SuitesOpen);
  }

  lemma FailedPresent(st: ReportState, environment: string, reportType: string, generatedAt: string)
    requires FailedSection(st.failed).Ok?
    ensures FailedOpen in Page(st, environment, reportType, generatedAt, FailedSection(st.failed).value) <==> st.failed != []
  {
    PageSections(st, environment, reportType, generatedAt, FailedOpen);
  }

  lemma RecsPresent(st: ReportState, environment: string, reportType: string, generatedAt: string)
    requires FailedSection(st.failed).Ok?
    ensures RecsOpen in Page(st, environment, reportType, generatedAt, FailedSection(st.failed).value) <==> st.recommendations != []
  {
    PageSections(st, environment, reportType, generatedAt, RecsOpen);
  }

  lemma PageSections(st: ReportState, environment: string, reportType: string, generatedAt: string, x: HtmlBlock)
    requires FailedSection(st.failed).Ok?
    ensures var page := Page(st, environment, reportType, generatedAt, FailedSection(st.failed).value);
      (SectionOf(x) == 1 ==> (x in page <==> x in ChartSection(st.charts))) &&
      (SectionOf(x) == 2 ==> (x in page <==> x in SuiteSection(st.suites))) &&
      (SectionOf(x) == 3 ==> (x in page <==> x in FailedSection(st.failed).value)) &&
      (SectionOf(x) == 4 ==> (x in page <==> x in RecSection(st.recommendations)))
    ensures ChartsOpen in ChartSection(st.charts) <==> st.charts != []
    ensures SuitesOpen in SuiteSection(st.suites) <==> st.suites != []
    ensures FailedOpen in FailedSection(st.failed).value <==> st.failed != []
    ensures RecsOpen in RecSection(st.recommendations) <==> st.recommendations != []
  {
    var head := [HeadOf(st, environment, reportType, generatedAt)];
    ChartSectionShape(st.charts);
    SuiteSectionShape(st.suites);
    FailedSectionShape(st.failed);
    RecSectionShape(st.recommendations);
    assert forall b :: b in head ==> SectionOf(b) == 0;
    InPage(head, ChartSection(st.charts), SuiteSection(st.suites), FailedSection(st.failed).value,
           RecSection(st.recommendations), x);
  }

  /** Every chart label fits in its limit plus the ellipsis, and the labels
      keep the order of the suites. */
  lemma SuiteLabelsBounded(suites: seq<SuiteRecord>)
    ensures forall k :: 0 <= k < |suites| ==>
      |SuiteLabels(suites)[k]| <= 18 && StartsWith(SuiteLabels(suites)[k], suites[k].name[..if |suites[k].name| > 15 then 15 else |suites[k].name|])
  {
    forall k | 0 <= k < |suites|
      ensures |SuiteLabels(suites)[k]| <= 18 &&
        StartsWith(SuiteLabels(suites)[k], suites[k].name[..if |suites[k].name| > 15 then 15 else |suites[k].name|])
    {
      var name := suites[k].name;
      var l := SuiteLabels(suites)[k];
      if |name| > 15 {
        assert l[..15] == name[..15];
      } else {
        assert l == name;
        assert name[..|name|] == name;
      }
    }
  }
}
