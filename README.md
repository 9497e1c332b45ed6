# WordMate QA automation — a verified model

The WordMate repository is a Robot Framework test suite for the WordMate
language-learning application. Around the tests sit several Python helper
scripts and one keyword library. This project models the parts of them that
compute something and proves properties of that model:

- **Report generator** (`ReportModel`, `ReportGenerator`, `ReportHtml`,
  `ElementTree`). It reads Robot Framework result documents, which are
  element trees. It builds per-suite records with their statistics, adds each
  document's pass/fail totals into global counters, and collects failed tests
  and per-file timings. It then works out the success rate, sorts test tags
  into environments and browsers, applies the recommendation rules, and lays
  out the fallback HTML page.
  - `ReportGenerator.Generator` is a class whose state is the generator's
    `report_data`. Its methods loop over suites, tests and tags, and each is
    proved equal to a pure specification function in `ReportModel`.
  - The lemmas are stated about those specification functions.
- **Environment configurator** (`ConfigureEnvironments`). It covers the
  `${NAME}` / `${NAME:-default}` substitution applied to a config file's text,
  the rule-based validator over the loaded config, and the overall health
  decision across environments.
- **Test runner** (`RunTests`, over `PurePath`): the `robot`/`pabot` command
  line built from the arguments and the environment configuration. The test
  path at its end is rendered as `str()` of a pathlib path does it.
- **Quick setup** (`QuickSetup`, over `OrderedDict`). It covers the prompt rules
  and defaults, the variables collected into an insertion-ordered dictionary,
  and the grouped `.env` text written from it.
- **API keyword library** (`WordmateApi`):
  - the auth-token state of the client (`WordmateApi.Client`);
  - the request URL and header merge;
  - response interpretation;
  - the login rule;
  - endpoint and request-body builders;
  - the JWT claim check on decoded claims;
  - the OAuth URL builder;
  - the cleanup selection.
- **Installers** (`InstallDependencies`, `SetupEnvironment`, `SetupRequirements`):
  - the version-gated package list and package-name extraction;
  - the Python-version gate;
  - the dependency check under its dashes-to-underscores import names;
  - driver filename and asset choice;
  - the archive rule and the `.exe` rule;
  - the step gating of `run_setup`;
  - the requirements-line filter of `setup.py`.

Python's behaviour is modelled explicitly where the scripts rely on it:
- exceptions are `Base.Result` errors named after the Python exception;
- `str.strip`, `lower`, `startswith` and `in`, and `int()`/`str()` of integers, are in `Base`;
- YAML/JSON values with Python truthiness, `in`, `[]`, `.get` and `str()` are `PyValue.Value`;
- dictionaries that keep insertion order are `OrderedDict.Dict`;
- ElementTree's `find(".//x")`/`findall(".//x")` are in `ElementTree`;
- POSIX pathlib's parsing, `/` joining and `str()` are in `PurePath`.

Everything outside the process is an input parameter. That covers the files
read, the environment variables, prompt answers, the clock and date, pip and
import outcomes, the HTTP transport and the JWT decoder.

## Model

| member | source | states |
|---|---|---|
| ElementTree.Get | scripts/generate_report.py:153 | An attribute lookup yields a value exactly when the attribute is present, and then it is that attribute's value. |
| ElementTree.GetOr | scripts/generate_report.py:192 | `get(name, default)` gives the attribute when present and the default otherwise. |
| ElementTree.FindAllMeaning | scripts/generate_report.py:175 | `findall(".//t")` holds exactly the proper descendants tagged `t`: everything it returns is one, and every one is returned. |
| ElementTree.FindMeaning | scripts/generate_report.py:164 | `find(".//t")` finds something iff some descendant is tagged `t`. It then returns the first such descendant in document order, with no earlier descendant tagged `t`. |
| ElementTree.FindIsHeadOfFindAll | scripts/generate_report.py:203 | `find(".//t")` is the first element of `findall(".//t")`, or None when that list is empty. |
| ElementTree.ChildStepMeaning | scripts/generate_report.py:232 | A child step `/t` of a path yields only elements tagged `t` that are children of an element matched so far. |
| ElementTree.ChildStepComplete | scripts/generate_report.py:232 | Conversely, every child tagged `t` of an element matched so far is yielded by the step. |
| ElementTree.FindStatMeaning | scripts/generate_report.py:232 | The element found by `.//statistics/total/stat` is a `stat` child of a `total` child of some `statistics` descendant. Whenever such a chain exists, the search finds something. |
| ElementTree.StatusIsFirstNestedStatus | scripts/generate_report.py:203-205 | Example (the general fact is `ElementTree.FindMeaning`): the status of a test is the first `status` anywhere beneath it: a keyword's PASS status inside a failing test is taken as the test's status. |
| ReportModel.TagTexts | scripts/generate_report.py:214-217 | One tag entry per `tag` element, in order, each being that element's text (None when it has none). |
| ReportModel.KeywordsOf | scripts/generate_report.py:220-226 | One keyword record per `kw` element, in order. |
| ReportModel.TestInfos | scripts/generate_report.py:175-178 | When no test raises, there is exactly one test record per `test` element of the suite. |
| ReportModel.TestInfosKeepsError | scripts/generate_report.py:175-178 | Once one test's extraction raises, so does the suite's: later tests cannot undo it. |
| ReportModel.StatsOf | scripts/generate_report.py:179-185 | A suite's total equals the number of its tests and equals passed + failed + skipped. |
| ReportModel.StatsOfPassed | scripts/generate_report.py:180-181 | `passed` is the number of tests whose status is exactly "PASS". |
| ReportModel.StatsOfFailed | scripts/generate_report.py:182-183 | `failed` is the number of tests whose status is exactly "FAIL"; every other status, UNKNOWN included, counts as skipped. |
| ReportModel.StatCounts | scripts/generate_report.py:232-235 | A document without the `statistics/total/stat` element contributes (0, 0). Otherwise the read raises ValueError iff `pass` or `fail` is present and is not an integer. An absent attribute counts as 0, and a present one counts as its `int()` value. |
| ReportModel.StatCountsWritten | scripts/generate_report.py:232-235 | Counts written as decimal digits, or left out for 0, are read back as exactly those numbers. |
| ReportModel.StatisticsStep | scripts/generate_report.py:230-239 | The step raises exactly when the read raises. Otherwise passed grows by the `pass` count, failed by the `fail` count and total by their sum. Nothing else changes, and a document without the stat element changes nothing. |
| ReportModel.FailedEntries | scripts/generate_report.py:243-260 | One failed-test entry per test whose first status is "FAIL", in document order, and no other entries. |
| ReportModel.FailedOfStep | scripts/generate_report.py:243-260 | Each test adds nothing when it does not fail. When it fails it adds its entry, or raises AttributeError when the document has no suite element to name. |
| ReportModel.FailedOfKeepsError | scripts/generate_report.py:248 | Once the missing suite lookup has raised, later tests do not change the outcome. |
| ReportModel.FailedStepCount | scripts/generate_report.py:241-260 | The failed list grows by exactly the number of failing tests of the document, and the earlier entries are kept as they were. |
| ReportModel.PerfStep | scripts/generate_report.py:262-280 | Nothing changes unless the first suite's first status has a non-empty `elapsed`. A non-integer value raises ValueError. Otherwise the time total grows by that many milliseconds, and the file's base name maps to that time and the document's number of tests. Only those two fields change. |
| ReportModel.PerfStepWritten | scripts/generate_report.py:262-280 | An `elapsed` written as the digits of `ms` adds exactly `ms` and stores `PerfMetric(ms, number of tests)`. |
| ReportModel.PerfOverwrite | scripts/generate_report.py:266-280 | For two documents with the same base name that both record a time, the total keeps both times. The file's entry holds only the second document's time and test count, and the other entries are as before. |
| ReportModel.CalculateSummary | scripts/generate_report.py:282-306 | With total > 0 the success rate is passed/total*100; with total 0 it is left as it was. Only the rate and the three classification sets change. |
| ReportModel.SummaryClassification | scripts/generate_report.py:290-306 | Environments ⊆ {dev, production, staging} and browsers ⊆ {chrome, firefox, edge, safari}. The suite-name set is exactly the set of names of the suite records. |
| ReportModel.TagsInMeaning | scripts/generate_report.py:298-302 | A name is collected iff it is one of the listed names and occurs as a tag. |
| ReportModel.TestsTagsIff | scripts/generate_report.py:297-302 | A name is collected from a suite iff it is a listed name and is a tag of one of its tests. |
| ReportModel.SuitesTagsIff | scripts/generate_report.py:295-302 | A name is collected from all suites iff it is a listed name and is a tag of some test of some suite. |
| ReportModel.SuitesTagsWithin | scripts/generate_report.py:299-302 | The collected set never holds anything outside the listed names. |
| ReportModel.SuiteNames | scripts/generate_report.py:295-296 | The suite-name set holds exactly the names of the suite records. |
| ReportModel.ClassificationDisjoint | scripts/generate_report.py:299-302 | No tag is both an environment and a browser, and every environment is a tag of some test. |
| ReportModel.RateBelowIff | scripts/generate_report.py:504 | With total > 0, a rate below a bound b is the integer condition passed*100 < b*total. |
| ReportModel.RecommendationConditions | scripts/generate_report.py:498-557 | Each rule fires iff its condition holds: rate < 70; 70 ≤ rate < 90; more than 3600 s (3 600 000 ms); more than 10 failed entries; fewer than 50 tests. |
| ReportModel.RecommendationKinds | scripts/generate_report.py:504-556 | A recommendation is "critical" exactly when it is the low-rate rule. |
| ReportModel.RecommendationOrder | scripts/generate_report.py:498-559 | Ranks strictly increase along the list: rate rule, then time, then failed count, then coverage. The two rate rules share a rank, so they never both appear. |
| ReportModel.RecommendIdempotent | scripts/generate_report.py:559 | The list is replaced, not appended: generating the recommendations twice is the same as once. |
| ReportModel.ChartsStep | scripts/generate_report.py:308-326 | Without plotting nothing changes. With plotting, only the chart list changes, and it grows by the new charts. |
| ReportModel.NewChartsMeaning | scripts/generate_report.py:328-496 | The pie chart is added iff some test passed or failed, the time chart iff a metric was recorded, and the suite chart iff a suite was found. No other chart is added, and they come in the order pie, time, suite. |
| ReportModel.ChartsAdded | scripts/generate_report.py:308-496 | With plotting, the earlier charts are kept and at most three are appended: exactly those with data, in the fixed order. |
| ReportModel.InitialConsistent | scripts/generate_report.py:62-89 | The initial `report_data` is balanced: total = passed + failed, with skipped and error counts at 0. |
| ReportModel.ParseDocumentConsistent | scripts/generate_report.py:121-144 | Parsing one document keeps the counters balanced and every suite's statistics equal to the counts of its tests, even when the document raises part-way. |
| ReportModel.ParseAllConsistent | scripts/generate_report.py:112-117 | After any number of documents the counters are balanced. |
| ReportModel.ParseFilesConsistent | scripts/generate_report.py:102-119 | Parsing a set of files, summary included, keeps the counters balanced. |
| ReportModel.CalculateSummaryConsistent | scripts/generate_report.py:282-288 | Computing the summary keeps the counters balanced. |
| ReportHtml.Truncate | scripts/generate_report.py:393 | A label no longer than n is kept as is. A longer one becomes its first n characters followed by "...". |
| ReportHtml.SuiteLabels | scripts/generate_report.py:433-436 | One label per suite, in order: its name cut to 15 characters plus "..." when longer. |
| ReportHtml.SuiteLabelsBounded | scripts/generate_report.py:433-436 | Every suite label is at most 18 characters long and starts with the first 15 characters of the name. |
| ReportHtml.SuiteRateMeaning | scripts/generate_report.py:725-727 | A suite row's rate is 0 when the suite has no tests, and passed/total*100 otherwise. It lies in [0, 100] when passed ≤ total. |
| ReportHtml.JoinTags | scripts/generate_report.py:759 | Joining tags succeeds iff every tag has text, and raises TypeError otherwise. A single tag joins to itself. |
| ReportHtml.TagsText | scripts/generate_report.py:759 | An empty tag list shows "None". Any other list shows the joined tags, or raises TypeError when one has no text. |
| ReportHtml.EnvironmentName | scripts/generate_report.py:571 | The environment shown is never empty: an absent or empty one becomes "unknown". |
| ReportHtml.ChartCards | scripts/generate_report.py:693-699 | One chart card per chart, in order. |
| ReportHtml.SuiteRows | scripts/generate_report.py:724-738 | One table row per suite record, in order. |
| ReportHtml.FailedCards | scripts/generate_report.py:753-761 | One card per failed test, in order, when every tag list renders; TypeError otherwise. |
| ReportHtml.RecCards | scripts/generate_report.py:774-781 | One card per recommendation, in order. |
| ReportHtml.FallbackFailsIff | scripts/generate_report.py:753-759 | The fallback page fails, with TypeError, iff some failed test has a tag without text. |
| ReportHtml.ChartSectionShape | scripts/generate_report.py:686-703 | The charts section opens iff there are charts, and holds only chart markup. |
| ReportHtml.SuiteSectionShape | scripts/generate_report.py:705-744 | The suites section opens iff there are suite records, and holds only suite markup. |
| ReportHtml.FailedSectionShape | scripts/generate_report.py:746-765 | The failed-tests section opens iff there are failed tests, and holds only failed-test markup. |
| ReportHtml.RecSectionShape | scripts/generate_report.py:767-785 | The recommendations section opens iff there are recommendations, and holds only recommendation markup. |
| ReportHtml.SectionsPresentIff | scripts/generate_report.py:686-785 | In a rendered page each of the four sections is present iff its list is non-empty. |
| ReportHtml.ChartsPresent | scripts/generate_report.py:687 | The page has the charts section iff there are charts. |
| ReportHtml.SuitesPresent | scripts/generate_report.py:706 | The page has the suites section iff there are suite records. |
| ReportHtml.FailedPresent | scripts/generate_report.py:747 | The page has the failed-tests section iff there are failed tests. |
| ReportHtml.RecsPresent | scripts/generate_report.py:768 | The page has the recommendations section iff there are recommendations. |
| ReportHtml.PageSections | scripts/generate_report.py:607-790 | A block of any section is in the page iff it is in that section's own markup. Each section opens iff its list is non-empty. |
| ReportGenerator.CollectTags | scripts/generate_report.py:214-217 | The loop collects exactly the tag texts of the first `tags` element. |
| ReportGenerator.CollectKeywords | scripts/generate_report.py:220-226 | The loop collects one keyword record per `kw` descendant, in order. |
| ReportGenerator.ExtractTestInfo | scripts/generate_report.py:189-228 | The extracted test record, or the error raised, is the one the specification gives. |
| ReportGenerator.AddTestRecord | scripts/generate_report.py:176-185 | Adding one test keeps the records and the counters equal to those of the tests seen so far. |
| ReportGenerator.CountStatus | scripts/generate_report.py:179-185 | A status bumps total and exactly one of passed, failed or skipped. |
| ReportGenerator.ExtractTests | scripts/generate_report.py:175-185 | The loop over the suite's tests yields the specified records, with statistics equal to their counts. |
| ReportGenerator.ExtractSuiteInfo | scripts/generate_report.py:146-187 | The suite record is the one specified: none without a suite element, else name, source, timing, tests and statistics. |
| ReportGenerator.ReadStatCounts | scripts/generate_report.py:232-235 | The read gives `StatCounts`: (0, 0) without the stat element, an absent attribute as 0, and ValueError iff a present attribute is not an integer. |
| ReportGenerator.AddFailure | scripts/generate_report.py:244-260 | Handling one test extends the failed list exactly as the specification says. |
| ReportGenerator.FailedTestsOf | scripts/generate_report.py:243-260 | The loop yields exactly the specified failed entries, or the AttributeError. |
| ReportGenerator.ClassifyTag | scripts/generate_report.py:299-302 | One tag is added to environments or browsers exactly when it belongs to that list. |
| ReportGenerator.ClassifyTags | scripts/generate_report.py:298-302 | The loop over a test's tags adds exactly its environment and browser tags. |
| ReportGenerator.ClassifyTests | scripts/generate_report.py:297-302 | The loop over a suite's tests adds exactly their environment and browser tags. |
| ReportGenerator.AppendChartCards | scripts/generate_report.py:693-699 | The loop appends one card per chart to the page. |
| ReportGenerator.AppendChartSection | scripts/generate_report.py:686-703 | The charts section is appended as specified. |
| ReportGenerator.AppendSuiteRows | scripts/generate_report.py:724-738 | The loop appends one row per suite. |
| ReportGenerator.AppendSuiteSection | scripts/generate_report.py:705-744 | The suites section is appended as specified. |
| ReportGenerator.AppendFailedCards | scripts/generate_report.py:753-761 | The loop appends one card per failed test, or stops with the TypeError. |
| ReportGenerator.AppendFailedSection | scripts/generate_report.py:746-765 | The failed-tests section is appended as specified. |
| ReportGenerator.AppendRecCards | scripts/generate_report.py:774-781 | The loop appends one card per recommendation. |
| ReportGenerator.AppendRecSection | scripts/generate_report.py:767-785 | The recommendations section is appended as specified. |
| ReportGenerator.BuildRecommendations | scripts/generate_report.py:498-557 | The list built rule by rule is the specified recommendation list. |
| ReportGenerator.Generator.constructor | scripts/generate_report.py:56-89 | A new generator starts from the initial, balanced `report_data`. |
| ReportGenerator.Generator.ExtractTestStatistics | scripts/generate_report.py:230-239 | The new state is the statistics step's: passed, failed and total grow by the document's counts. When the read raises, the state is left as it was and the ValueError is returned. |
| ReportGenerator.Generator.ExtractFailedTests | scripts/generate_report.py:241-260 | Failed entries are appended as the failed step says. After a raise, the entries added before it remain. |
| ReportGenerator.Generator.ExtractPerformanceMetrics | scripts/generate_report.py:262-280 | The new state is the performance step's: the recorded elapsed time is added to the total and stored under the file's base name. A non-integer time leaves the state as it was, with ValueError. |
| ReportGenerator.Generator.ParseSingleXmlFile | scripts/generate_report.py:121-144 | The state after one file is the specified one. A malformed file changes nothing, and a raise keeps the earlier steps' changes. |
| ReportGenerator.Generator.CalculateSummaryStatistics | scripts/generate_report.py:282-306 | The new state is the specified summary of the old one. |
| ReportGenerator.Generator.ParseRobotOutputFiles | scripts/generate_report.py:102-119 | All files are parsed in order and then summarised, with no summary when there are no files. Balanced counters stay balanced. |
| ReportGenerator.Generator.GenerateRecommendations | scripts/generate_report.py:498-559 | The recommendations are replaced by the rule list for the current summary. |
| ReportGenerator.Generator.GenerateCharts | scripts/generate_report.py:308-326 | The new state is the chart step's: unchanged without plotting, otherwise the three chart methods run in order. |
| ReportGenerator.Generator.GeneratePieChart | scripts/generate_report.py:328-372 | The pie chart is appended unless passed and failed are both 0. Nothing else changes. |
| ReportGenerator.Generator.GenerateExecutionTimeChart | scripts/generate_report.py:374-423 | The time chart is appended unless no metric was recorded. Nothing else changes. |
| ReportGenerator.Generator.GenerateSuiteChart | scripts/generate_report.py:425-496 | The suite chart is appended unless no suite was found. Nothing else changes. |
| ReportGenerator.Generator.GenerateHtmlFallback | scripts/generate_report.py:607-792 | The page is the specified fallback page for the current state. |
| ReportGenerator.Generator.GenerateHtmlReport | scripts/generate_report.py:561-588 | Recommendations are regenerated and the page is rendered for "unknown" or the given environment. The file is `wordmate_test_report_<type>.html`. |
| ReportGenerator.Generator.GenerateCompleteReport | scripts/generate_report.py:810-854 | The steps run in order (parse, charts, recommendations, HTML) and name the HTML and JSON files. |
| ConfigureEnvironments.LoadEnvironmentConfig | scripts/configure_environments.py:45-83 | An unknown environment, or a missing config file, yields None. |
| ConfigureEnvironments.PlainPlaceholderReplaced | scripts/configure_environments.py:64-72 | `${NAME}` becomes the variable's value, or "" when it is unset. |
| ConfigureEnvironments.DefaultedPlaceholderReplaced | scripts/configure_environments.py:64-72 | `${NAME:-d}` becomes the variable's value, or the captured group "-d", leading dash included, when it is unset. |
| ConfigureEnvironments.UnsetDefaultKeepsDash | scripts/configure_environments.py:64-76 | After both passes an unset `${NAME:-d}` reads "-d". |
| ConfigureEnvironments.SecondPassWholeInner | scripts/configure_environments.py:73-76 | The second pass replaces `${X}` by the lookup of the whole inner text X, defaulting to "". |
| ConfigureEnvironments.DefaultedPassIdentity | scripts/configure_environments.py:70-72 | Text without `${` is unchanged by the first pass. |
| ConfigureEnvironments.PlainPassIdentity | scripts/configure_environments.py:74-76 | Text without `${` is unchanged by the second pass. |
| ConfigureEnvironments.ExpandWithoutPlaceholders | scripts/configure_environments.py:64-76 | Text without `${` is unchanged by the substitution. |
| ConfigureEnvironments.SectionCheckCounts | scripts/configure_environments.py:206-211 | Every required section is either reported missing or recorded present. |
| ConfigureEnvironments.SectionCheckOfScalar | scripts/configure_environments.py:207 | A config that is a scalar raises TypeError on the first section test. |
| ConfigureEnvironments.CheckUrl | scripts/configure_environments.py:214-228 | A URL is missing iff its value is falsy. It is insecure, a warning only, iff it is a non-empty string not starting with "https://". |
| ConfigureEnvironments.Validate | scripts/configure_environments.py:183-237 | An unloaded or empty config gives the "could not load" result. Otherwise the result is a checked validation or a raised error. |
| ConfigureEnvironments.SectionErrorsNameSections | scripts/configure_environments.py:208 | Every section error reads "Missing section: …". |
| ConfigureEnvironments.ReportErrors | scripts/configure_environments.py:206-228 | The missing-URL errors are present iff the URLs are missing. The result is valid iff no section is missing and both URLs are present. |
| ConfigureEnvironments.ReportUrlWarnings | scripts/configure_environments.py:221-228 | An HTTPS warning is present iff that URL is insecure, and it leaves validity unchanged. |
| ConfigureEnvironments.ReportPlaceholderWarning | scripts/configure_environments.py:230-235 | A placeholder warning is present iff "your_" or "example" occurs in the lower-cased rendering of the config. |
| ConfigureEnvironments.MissingSectionInjective | scripts/configure_environments.py:208 | Different sections give different error messages. |
| ConfigureEnvironments.SectionErrorIff | scripts/configure_environments.py:206-209 | A section error is recorded iff the section is required and not in the config. |
| ConfigureEnvironments.SectionErrorCount | scripts/configure_environments.py:206-209 | A missing section is reported as many times as it is listed. |
| ConfigureEnvironments.OneErrorPerMissingSection | scripts/configure_environments.py:197-211 | Each of the five required sections that is missing adds exactly one error. |
| ConfigureEnvironments.UrlErrorsAreNotSectionErrors | scripts/configure_environments.py:208-225 | URL errors never read like section errors. |
| ConfigureEnvironments.ValidationRules | scripts/configure_environments.py:197-237 | valid ⇔ no error. Section errors are exactly the missing required sections, the URL errors match missing URLs, and the placeholder warning matches placeholder text. |
| ConfigureEnvironments.CheckSections | scripts/configure_environments.py:206-211 | The section loop records the specified errors and present sections; valid iff none is missing. |
| ConfigureEnvironments.CheckUrls | scripts/configure_environments.py:213-228 | The URL checks append the specified errors and warnings; validity drops iff an error was added. |
| ConfigureEnvironments.ValidateSteps | scripts/configure_environments.py:183-237 | Validation raises the section check's or the URL check's error, in that order, or reports their combined findings. |
| ConfigureEnvironments.ValidateEnvironmentConfig | scripts/configure_environments.py:183-237 | The imperative validator returns exactly the specified validation. |
| ConfigureEnvironments.TestConnectivity | scripts/configure_environments.py:153-181 | An unknown environment or an unloadable config gives a connectivity error, before any probe. |
| ConfigureEnvironments.EnvironmentsToCheck | scripts/configure_environments.py:279-281 | A given name is checked alone. With no name (or an empty one), all configured environments are checked. |
| ConfigureEnvironments.EnvironmentHealthyAsWritten | scripts/configure_environments.py:291-297 | As written, a config that could not be loaded raises KeyError when its errors are listed. |
| ConfigureEnvironments.MissingFileRaisesKeyError | scripts/configure_environments.py:292-295 | A missing dev config file makes the written code raise KeyError, where the intended result is "not healthy". |
| ConfigureEnvironments.AsWrittenAgreesWhenLoaded | scripts/configure_environments.py:287-322 | Whenever the config loads, the written code and the corrected decision agree. |
| ConfigureEnvironments.EnvironmentHealthyIff | scripts/configure_environments.py:287-322 | An environment is healthy iff its config validated, connectivity had no error, the base URL was accessible and the API healthy. |
| ConfigureEnvironments.CombineIff | scripts/configure_environments.py:282-322 | Combining the per-environment outcomes gives true iff every outcome is true. |
| ConfigureEnvironments.CombineErrorStops | scripts/configure_environments.py:287-322 | An exception for one environment ends the validation with that exception. |
| ConfigureEnvironments.AllHealthyIff | scripts/configure_environments.py:277-339 | The full validation returns true iff every checked environment is healthy. |
| ConfigureEnvironments.AccumulateHealth | scripts/configure_environments.py:282-322 | The loop updating `all_healthy` computes the combined outcome of the per-environment checks. |
| ConfigureEnvironments.RunFullValidation | scripts/configure_environments.py:277-339 | The full validation returns the combined health of the environments to check. |
| RunTests.TestPathNormal | scripts/run_tests.py:122-129 | The path in the command is in pathlib's normal form: rendering it again changes nothing. A suite given as a plain name becomes the tests directory, a slash and the name. |
| PurePath.SplitSlash | scripts/run_tests.py:122-129 | The pieces of `split("/")` contain no slash, and there is at least one. |
| PurePath.SplitJoin | scripts/run_tests.py:122-129 | Joining the pieces of a split with "/" gives the text back. |
| PurePath.JoinSplit | scripts/run_tests.py:122-129 | Splitting a join of slash-free pieces gives the pieces back. |
| PurePath.PartsArePartList | scripts/run_tests.py:122-129 | Reading a path gives one of the roots "", "/" or "//", and parts that are neither empty nor "." and contain no slash. |
| PurePath.RenderRead | scripts/run_tests.py:122-129 | Reading the text `str()` renders gives back the same root and parts. |
| PurePath.PathStrIdempotent | scripts/run_tests.py:122-129 | `str(Path(str(Path(s))))` equals `str(Path(s))`. |
| PurePath.JoinPathMeaning | scripts/run_tests.py:122-124 | A part with a root replaces the base. A relative part is read under the base's root, with the base's parts followed by its own. |
| PurePath.JoinPathNormal | scripts/run_tests.py:122-124 | A joined path is already in normal form. |
| PurePath.JoinPlainName | scripts/run_tests.py:122-124 | A plain name under a directory that has a part becomes the directory's text, a slash and the name. |
| PurePath.TrailingSlashDropped | scripts/run_tests.py:122-124 | A trailing slash on a suite name goes: `Path(d) / "ui/"` renders as `d/ui`. |
| PurePath.DotPartDropped | scripts/run_tests.py:125-126 | A leading "." part goes: `Path("./a.robot")` renders as `a.robot`. |
| PurePath.AbsoluteNameReplaces | scripts/run_tests.py:122-124 | `Path(d) / "/x"` renders as `/x`, whatever `d` is. |
| RunTests.TagPairs | scripts/run_tests.py:97-103 | Two words per tag. |
| RunTests.TagPairsMeaning | scripts/run_tests.py:97-103 | The k-th tag contributes the flag at position 2k and the tag at 2k+1, in the given order. |
| RunTests.VariableOptions | scripts/run_tests.py:81-94 | Exactly five `--variable` pairs are emitted. |
| RunTests.ExtendTagPairs | scripts/run_tests.py:97-103 | The loop extends the command by exactly the tag pairs. |
| RunTests.ExtendMiddle | scripts/run_tests.py:64-109 | The command starts with "robot" followed by the outputs, variables, tags and log level. |
| RunTests.ExtendCommand | scripts/run_tests.py:64-129 | The command built step by step, `cmd[0]` overwrite included, is the specified list. |
| RunTests.BuildRobotCommand | scripts/run_tests.py:58-131 | The command, or the KeyError of a missing config entry, is the specified one. |
| RunTests.AssembleLength | scripts/run_tests.py:64-129 | The command length counts every option: 19 fixed words, two per tag, two for the log level, two for processes, one for dryrun, one for the path. |
| RunTests.AssembleHead | scripts/run_tests.py:64-94 | The program word, then the eight output words, then the ten variable words. |
| RunTests.AssembleTags | scripts/run_tests.py:96-109 | Include pairs come first, then exclude pairs, then "--loglevel" and the level. |
| RunTests.AssembleTail | scripts/run_tests.py:111-129 | The last word is the test path, "--dryrun" precedes it when set, and `--processes n` follows the log level for a parallel run. |
| RunTests.CommandParts | scripts/run_tests.py:58-131 | The full command: "pabot" iff parallel, else "robot"; output names embed the timestamp; then five variable pairs, the tags in order, the log level, the processes, dryrun and the path. |
| RunTests.AssembleTagPositions | scripts/run_tests.py:97-103 | Each include tag sits after "--include" at its own position, and each exclude tag after "--exclude", following all includes. |
| RunTests.CommandTags | scripts/run_tests.py:97-103 | In the built command, the includes come in the given order and then the excludes. |
| RunTests.LoggingSectionNeededOnlyWithoutLevel | scripts/run_tests.py:106-109 | A given log level is used without reading the config. Without one, a config lacking `logging` raises KeyError. |
| RunTests.MissingEnvironmentSection | scripts/run_tests.py:86 | A config without an `environment` section raises KeyError. |
| QuickSetup.OverwriteAnswers | scripts/quick_setup.py:38-46 | With an existing .env, the answers "y" and "Y" let setup proceed, while "", "yes" and "n" cancel it. |
| QuickSetup.DatabaseDefaults | scripts/quick_setup.py:54-63 | After the database prompts, an empty answer gives localhost, 3306, u796724541_englishAppDB or u796724541_adminGMC. A given answer is stored as typed; the password is the hidden answer. |
| QuickSetup.VarUpdatesMeaning | scripts/quick_setup.py:143-154 | A service variable is stored iff its answer is non-blank after stripping. It is stored unstripped, taken from the hidden prompt when its name mentions password, secret or token. |
| QuickSetup.SelectedNonEmpty | scripts/quick_setup.py:199-200 | A category selects something iff some collected variable is one of its names. |
| QuickSetup.BlockShape | scripts/quick_setup.py:199-204 | A category block is non-empty iff some collected variable belongs to it. It then starts with `# category` and ends with a newline. |
| QuickSetup.SelectedInOrder | scripts/quick_setup.py:199 | Selecting a category's variables keeps the dictionary's insertion order. |
| QuickSetup.LinesConcat | scripts/quick_setup.py:202-203 | The `NAME=value` lines of a dictionary are those of its parts, in order. |
| QuickSetup.SelectedOfKept | scripts/quick_setup.py:199 | Dropping variables that no category names does not change what a category selects. |
| QuickSetup.BlocksOfKept | scripts/quick_setup.py:198-204 | Dropping variables that no category names does not change the category blocks. |
| QuickSetup.UncategorisedNotWritten | scripts/quick_setup.py:161-204 | The .env text equals the text written for the categorised variables alone: variables outside every category are not written. |
| QuickSetup.CategoryBlock | scripts/quick_setup.py:199-204 | The loop over one category writes exactly its block. |
| QuickSetup.CategoryBlocks | scripts/quick_setup.py:198-204 | The loop over the categories writes exactly the category blocks, in the fixed order. |
| QuickSetup.Setup.constructor | scripts/quick_setup.py:22-25 | Setup starts with no collected variables. |
| QuickSetup.Setup.Set | scripts/quick_setup.py:54 | Assigning a variable replaces its value in place, or appends it, keeping keys distinct. |
| QuickSetup.Setup.SetEach | scripts/quick_setup.py:54-63 | A run of assignments gives the dictionary the specification says. |
| QuickSetup.Setup.GetDatabaseCredentials | scripts/quick_setup.py:48-63 | The database variables are assigned with their defaults. |
| QuickSetup.Setup.GetTestCredentials | scripts/quick_setup.py:65-90 | The four development variables are always assigned; the four production ones iff the answer is "y". |
| QuickSetup.Setup.GetJwtSecrets | scripts/quick_setup.py:92-106 | The two JWT secrets are assigned iff the answer is "y". |
| QuickSetup.Setup.GetOauthCredentials | scripts/quick_setup.py:108-127 | The four OAuth variables are assigned iff the answer is "y". |
| QuickSetup.Setup.ConfigureService | scripts/quick_setup.py:143-154 | One service's loop stores exactly its kept variables. |
| QuickSetup.Setup.ConfigureServices | scripts/quick_setup.py:140-154 | The loop over the services stores exactly the kept variables of the accepted services. |
| QuickSetup.Setup.GetOptionalServices | scripts/quick_setup.py:129-154 | The three optional services are handled in their fixed order. |
| QuickSetup.Setup.CreateEnvFile | scripts/quick_setup.py:156-222 | The text written is the header plus the category blocks, and the result reports the write's outcome. |
| QuickSetup.Setup.RunSetup | scripts/quick_setup.py:274-306 | Success iff setup proceeds and the file is written. A declined overwrite changes and writes nothing. Otherwise all answers are collected in order and the .env text of them is written. |
| WordmateApi.RequestUrlShape | resources/libraries/WordmateAPI.py:99 | The URL is the base URL followed by the endpoint. |
| WordmateApi.MergeHeadersGet | resources/libraries/WordmateAPI.py:100-103 | A per-call header overrides the session header of that name, and all other session headers pass through. |
| WordmateApi.NonJsonBody | resources/libraries/WordmateAPI.py:121-124 | A body that is not JSON becomes `{"text": body}`. |
| WordmateApi.WithTokenHeaders | resources/libraries/WordmateAPI.py:60-68 | Setting the token sets Authorization to "Bearer " + token and leaves the other headers unchanged. |
| WordmateApi.ClearedHeaders | resources/libraries/WordmateAPI.py:71-76 | Clearing removes Authorization and leaves the other headers unchanged. |
| WordmateApi.ClearIdempotent | resources/libraries/WordmateAPI.py:71-76 | Clearing twice is the same as clearing once. |
| WordmateApi.ClearUndoesSet | resources/libraries/WordmateAPI.py:60-76 | On a session without an Authorization header, setting a token and then clearing it gives back exactly the original headers, and no token. |
| WordmateApi.LoginOnlyOnSuccess | resources/libraries/WordmateAPI.py:151-154 | Login changes nothing unless the status is 200 and the data holds "token". |
| WordmateApi.LoginStoresToken | resources/libraries/WordmateAPI.py:151-154 | On success the token is stored and sent as Bearer. The refresh token is replaced only when present. |
| WordmateApi.Client.constructor | resources/libraries/WordmateAPI.py:26-47 | A new client has the given base URL, timeout and session headers, and no tokens. |
| WordmateApi.Client.SetApiBaseUrl | resources/libraries/WordmateAPI.py:50-57 | Only the base URL changes. |
| WordmateApi.Client.SetAuthToken | resources/libraries/WordmateAPI.py:60-68 | The client's state becomes the token-set state. |
| WordmateApi.Client.ClearAuthToken | resources/libraries/WordmateAPI.py:71-76 | The client's state becomes the cleared state. |
| WordmateApi.Client.MakeApiRequest | resources/libraries/WordmateAPI.py:79-134 | The request is built from the session, and a transport failure is re-raised. A status mismatch only sets the warning and never raises. The session is unchanged. |
| WordmateApi.Client.LoginUser | resources/libraries/WordmateAPI.py:137-156 | Login posts the credentials, applies the login rule to the state, and returns the response. |
| WordmateApi.VocabularyListShape | resources/libraries/WordmateAPI.py:207-211 | The endpoint always carries page and limit. `&search=` is appended iff a non-empty search is given. |
| WordmateApi.GrammarExercisesShape | resources/libraries/WordmateAPI.py:314-318 | `&category=` is appended iff a non-empty category is given. |
| WordmateApi.CustomVocabularyFields | resources/libraries/WordmateAPI.py:252-254 | The body holds word and definition, and pronunciation iff a non-empty one is given. |
| WordmateApi.ClaimsPresentMeaning | resources/libraries/WordmateAPI.py:350-354 | The claims check passes iff every required field is a key of the decoded claims. |
| WordmateApi.ClaimRules | resources/libraries/WordmateAPI.py:350-362 | A missing exp, iat or sub gives false. With all present and an integer exp, the token is valid iff exp is 0 or not before now. |
| WordmateApi.OauthProviders | resources/libraries/WordmateAPI.py:382-400 | A URL is produced iff the lower-cased provider is google or facebook, matched case-insensitively, and it names the redirect URI. Any other provider raises ValueError. |
| WordmateApi.CleanupSelection | resources/libraries/WordmateAPI.py:453-466 | Every DELETE is for a listed item whose field starts with "test_", addressed by its id. When no exception stops the loop, every such item gets its DELETE. |
| InstallDependencies.CorePackages | scripts/install_dependencies.py:39-71 | Each version's list has seven entries. |
| InstallDependencies.CorePackagesByVersion | scripts/install_dependencies.py:39-71 | Version ≥ 3.12 selects the first list, 3.9–3.11 the second, and anything older the third. |
| InstallDependencies.BeforeMeaning | scripts/install_dependencies.py:76 | `split(sep)[0]` is the longest prefix in which sep does not occur, ending where sep first occurs. |
| InstallDependencies.BeforeSeparator | scripts/install_dependencies.py:76 | The text before the first separator of `name + sep + rest` is `name`. |
| InstallDependencies.BeforeAbsent | scripts/install_dependencies.py:76 | Text without the separator is returned whole. |
| InstallDependencies.NameOf | scripts/install_dependencies.py:76 | The package name of `name>=constraint` is `name`. |
| InstallDependencies.FailedNamesMeaning | scripts/install_dependencies.py:74-80 | The failed list holds exactly the names of the packages whose install failed. |
| InstallDependencies.FailedNamesEmptyIff | scripts/install_dependencies.py:74-80 | Nothing failed iff every install succeeded. |
| InstallDependencies.InstallCoreDependencies | scripts/install_dependencies.py:30-80 | The install loop collects the failed names in list order. |
| InstallDependencies.RunInstallation | scripts/install_dependencies.py:146-189 | Outside a virtual environment without "y" it exits with 1. Optional packages are tried iff no core package failed; dev packages iff also answered "y". Exit 0 iff those ran and the imports work. |
| SetupEnvironment.VersionAcceptedMeaning | scripts/setup_environment.py:76-87 | A version is accepted iff (major, minor) ≥ (3, 8) lexicographically. |
| SetupEnvironment.VersionAcceptedMonotone | scripts/setup_environment.py:81 | A later version than an accepted one is accepted. |
| SetupEnvironment.DashToUnderscoreMeaning | scripts/setup_environment.py:104 | The import name of a package is the package name with each "-" replaced by "_" and every other character kept. It has no dash, a dash-free name is itself, and the replacement is idempotent. |
| SetupEnvironment.MissingPackagesEmptyIff | scripts/setup_environment.py:100-113 | No package is missing iff every required package's import name imports. |
| SetupEnvironment.MissingPackagesMeaning | scripts/setup_environment.py:100-107 | A package is recorded, under its own name, iff it is listed and its import name does not import. |
| SetupEnvironment.ValidateDependencies | scripts/setup_environment.py:89-115 | The loop imports each package under its dashes-to-underscores name and records the package name when that import fails, in list order. Validation passes iff none is missing. |
| SetupEnvironment.AsWrittenImports | scripts/setup_environment.py:89-104 | On a complete installation only `selenium` and `requests` import under their dashes-to-underscores names. The other four names are not installed modules. |
| SetupEnvironment.AsWrittenRejectsInstall | scripts/setup_environment.py:89-115 | On a complete installation the check as written reports robotframework, robotframework-seleniumlibrary, robotframework-requests and pyyaml as missing. |
| SetupEnvironment.ModuleNamesOfRequired | scripts/setup_environment.py:89-104 | The corrected import names of the six packages are robot, SeleniumLibrary, RequestsLibrary, selenium, requests and yaml, in order. |
| SetupEnvironment.ModuleNamesAcceptInstall | scripts/setup_environment.py:89-115 | With the corrected names a complete installation passes, and any environment passes iff each of the six real modules imports. |
| SetupEnvironment.ChromeDriverUrl | scripts/setup_environment.py:117-140 | A URL is produced iff the latest version was fetched, and the version is that text stripped. |
| SetupEnvironment.ChromeFilenameIsZip | scripts/setup_environment.py:125-133 | The Chrome driver filename is a plain `.zip` name. |
| SetupEnvironment.ChromeDownloadIsPlatformZip | scripts/setup_environment.py:125-181 | The download filename of the Chrome URL is the platform's filename, so it is unzipped. |
| SetupEnvironment.AfterLastSlashOfSegment | scripts/setup_environment.py:181 | The text after the last "/" of `prefix/name` is `name`. |
| SetupEnvironment.FirstMatchingAssetMeaning | scripts/setup_environment.py:151-168 | The chosen asset is the first in list order matching the platform's rule; none is chosen iff none matches. |
| SetupEnvironment.FindFirefoxAsset | scripts/setup_environment.py:151-168 | The loop with early return finds that first matching asset. |
| SetupEnvironment.FirefoxDriverUrl | scripts/setup_environment.py:142-172 | The chosen asset's download URL comes with the release tag. There is no URL without a release or without a matching asset. |
| SetupEnvironment.ArchiveOf | scripts/setup_environment.py:191-196 | ".zip" is unzipped; otherwise ".tar.gz" is untarred; anything else is not extracted. |
| SetupEnvironment.TarGzIsUntarred | scripts/setup_environment.py:194-196 | A ".tar.gz" file is untarred. |
| SetupEnvironment.LastDot | scripts/setup_environment.py:327 | The suffix starts at the last dot of the name. |
| SetupEnvironment.Suffix | scripts/setup_environment.py:327 | A name's suffix is empty or a dot-led ending of the name. |
| SetupEnvironment.DriverFileOfPlainName | scripts/setup_environment.py:325-327 | On Windows a dot-free executable gets ".exe" appended; elsewhere it is kept. |
| SetupEnvironment.DriverFilesOnWindows | scripts/setup_environment.py:317-327 | On Windows the drivers are chromedriver.exe and geckodriver.exe. |
| SetupEnvironment.RunSetup | scripts/setup_environment.py:380-442 | Success iff the version check passes and no package is missing under the dashes-to-underscores import names; with validate_only it stops there. Drivers are installed iff update_drivers is set or none is valid, each only when its browser is found. |
| SetupRequirements.Requirements | setup.py:7-9 | The output is never longer than the input. |
| SetupRequirements.RequirementsConcat | setup.py:7-9 | The filter works line by line and keeps the order. |
| SetupRequirements.RequirementFromKeptLine | setup.py:7-9 | Every requirement is a kept input line, stripped. |
| SetupRequirements.KeptLineIsRequirement | setup.py:7-9 | Every kept line appears, stripped. |
| SetupRequirements.RequirementStripped | setup.py:8 | Every requirement is non-empty and has no surrounding whitespace. |
| SetupRequirements.BlankLineDropped | setup.py:8 | A blank or whitespace-only line is dropped. |
| SetupRequirements.CommentLineDropped | setup.py:8 | A line whose first raw character is "#" is dropped. |
| SetupRequirements.IndentedCommentKept | setup.py:8 | Example (the general facts are `RequirementFromKeptLine` and `KeptLineIsRequirement`): an indented comment line is kept, stripped. |

## Left out

- Plotting: matplotlib drawing and PNG files (scripts/generate_report.py:328-496) are not modelled, because they wrap an external library. A chart is an entry naming its file, and the label truncation rules are kept.
- Jinja2 template rendering (scripts/generate_report.py:590-605) is left out, because the template is an external file. Only the fallback page is modelled, and a page is a sequence of blocks, not HTML text. The style sheet and fixed markup are not reproduced.
- File discovery (`rglob`), `ET.parse`, the HTML/JSON writes, directory creation, `webbrowser` and `.env` chmod are not modelled. Parsed trees, file contents and the write's outcome are parameters. A malformed XML file is a document with no root.
- Floating point: elapsed times are integer milliseconds instead of seconds, and `:.1f` formatting is not modelled. The success rate is an exact real.
- ReportModel.Rate: states passed/total*100 as an exact real, with no float rounding.
- Network calls are parameters or left out:
  - the `requests` session and its retry adapter (resources/libraries/WordmateAPI.py:35-47) are left out; the transport is a function parameter;
  - the URL and API health probes (scripts/configure_environments.py:85-151) are a parameter;
  - driver downloads (scripts/setup_environment.py:117-217) are parameters, with only the choices made on their results modelled;
  - the DELETE requests of `cleanup_test_data` are left out: the model computes which endpoints would be deleted, so their failures and the listing requests' sequencing are not modelled.
- Subprocesses are left out: robot execution (`run_tests`), pip installs, browser probes and driver `--version` checks. Their outcomes are parameters: `pipOk`, `importable`, the browsers found and the valid drivers.
- `load_environment_config` (scripts/run_tests.py:36-44), `create_reports_directory` (46-56) and `list_available_tests` (166-185) are left out: they are file-system steps. The config value, reports directory and timestamp are parameters.
- Prompts and `getpass` answers, `os.popen('date')`, `os.getenv` and `sys.prefix` are parameters. `yaml.safe_load`, `jwt.decode` and the clock (`time.time`) are parameters too: their behaviour cannot be seen here.
- WordmateApi.ClaimRules: states the expiry rule for integer `exp` claims only; a float `exp` is read as "not a number" and not compared.
- WordmateApi.Client: HTTP header names are compared case-sensitively, whereas `requests` compares them case-insensitively.
- WordmateApi.Client.constructor: requires the starting session headers to have distinct names, as a dictionary's do.
- The thin endpoint wrappers around `make_api_request` are not modelled separately: `register_user`, `get_user_profile`, the favourites, folders and grammar-submit calls. They add no logic beyond a fixed endpoint and body.
- `generate_test_data` (Faker), `verify_api_response_schema` (jsonschema), `wait_for_element_api_response` (sleep loop, always False) and `measure_api_performance` (float timing) are left out: they wrap libraries or the clock.
- `validate_setup` and `print_next_steps` in scripts/quick_setup.py are left out, because they only read the file back and print. `print_*` status output elsewhere is left out too.
- QuickSetup.VarUpdatesMeaning: the secret-name rule is proved for every name through `IsSecretName`, not evaluated on the six concrete service variable names.
- `Base.Lower` lower-cases ASCII letters only, not the full Unicode case mapping of Python's `str.lower`.
- Base.Title: title-cases ASCII letters only. Python's `str.title`, used for the report page's heading, treats every cased Unicode letter as a letter, so "éa" is "Éa" in Python and "éA" here.
- PyValue.Value: has no float or date values, which `yaml.safe_load` can yield (`timeout: 2.5`). The `--variable` text built through `StrOf` and the `Repr` used by the placeholder search are stated only for strings, integers, booleans, None, lists and dictionaries.
- Base.IsDigit: accepts the ASCII digits only, so `ParseInt` refuses the other Unicode decimal digits that Python's `int()` accepts.
- PurePath: only the POSIX flavour of pathlib is modelled. The tests directory is a parameter read as path text, and Windows drive letters and backslashes are not.
- Chart drawing errors: each chart method of the report generator catches any exception from matplotlib and then records no chart. Such failures are not modelled, and a chart with data is always recorded.
- `PyValue.Repr`, used for the placeholder search, renders strings without Python's escaping of quotes and backslashes.
- The round trip of integer printing and parsing is proved for non-negative integers only.
- SetupEnvironment.RunSetup: runs the dependency check as the script writes it, with the dashes-to-underscores import names, so its success condition is the one that rejects a complete installation. The corrected names are stated for the check alone, by `SetupEnvironment.ModuleNamesAcceptInstall`.
- SetupEnvironment.InstalledModules: the top-level module names of the six distributions (`robot`, `SeleniumLibrary`, `RequestsLibrary`, `selenium`, `requests`, `yaml`) come from how those distributions are published, not from this repository.
- install_git_hooks.py is not part of this model: it writes constant shell scripts and sets permissions.

## Findings

| source | as written | input that shows it | evidently intended | confidence | as-written member | corrected member |
|---|---|---|---|---|---|---|
| scripts/configure_environments.py:292-295 | When validation fails, the loop iterates `config_validation["errors"]`, but a config that could not be loaded returns `{"valid": False, "error": …}` with no "errors" key, so `run_full_validation` raises KeyError | `run_full_validation("dev")` when the dev config file does not exist (or its YAML is empty) | report the environment as unhealthy and go on, returning false | not executed | ConfigureEnvironments.EnvironmentHealthyAsWritten (with ConfigureEnvironments.MissingFileRaisesKeyError) | ConfigureEnvironments.EnvironmentHealthy (with ConfigureEnvironments.EnvironmentHealthyIff, ConfigureEnvironments.AllHealthyIff, ConfigureEnvironments.RunFullValidation) |
| scripts/setup_environment.py:104 | `validate_dependencies` imports `package.replace("-", "_")`, but four of the six distributions install modules of other names: robotframework installs `robot`, robotframework-seleniumlibrary installs `SeleniumLibrary`, robotframework-requests installs `RequestsLibrary` and pyyaml installs `yaml`. So the check reports those four as missing, and `run_setup` stops at the dependency step | a complete installation of the six packages, where exactly `robot`, `SeleniumLibrary`, `RequestsLibrary`, `selenium`, `requests` and `yaml` import | import each package under its real module name, so that a complete installation passes | not executed | SetupEnvironment.ValidateDependencies (with SetupEnvironment.AsWrittenImports, SetupEnvironment.AsWrittenRejectsInstall) | SetupEnvironment.ModuleName (with SetupEnvironment.ModuleNamesOfRequired, SetupEnvironment.ModuleNamesAcceptInstall) |
