/** The Robot Framework command line that the test runner builds from its
    arguments and the environment's configuration. The clock, the reports
    directory it creates and the tests directory are parameters; running the
    command is not modelled. */
module RunTests {
  import opened Base
  import opened PyValue
  import opened PurePath

  /** The parsed command-line arguments that build_robot_command reads.
      `parallel` is 0 when the option is absent: absent and 0 are both false. */
  datatype Args = Args(
    environment: string,
    suite: Option<string>,
    testFile: Option<string>,
    includeTags: seq<string>,
    excludeTags: seq<string>,
    parallel: int,
    logLevel: Option<string>,
    dryrun: bool)

  /** An optional string argument that Python treats as true. */
  predicate Given(o: Option<string>) {
    o.Some? && o.value != ""
  }

  /** config[section][key], rendered as an f-string renders it. */
  function ConfigText(config: Value, section: string, key: string): Result<string> {
    var s :- GetItem(config, section);
    var v :- GetItem(s, key);
    Ok(StrOf(v))
  }

  /** The pairs flag, tag for each tag in order. */
  function TagPairs(flag: string, tags: seq<string>): (r: seq<string>)
    ensures |r| == 2 * |tags|
  {
    if tags == [] then [] else TagPairs(flag, tags[..|tags| - 1]) + [flag, tags[|tags| - 1]]
  }

  /** Each tag sits at an odd position, right after its flag. */
  lemma {:induction false} TagPairsMeaning(flag: string, tags: seq<string>)
    ensures forall k :: 0 <= k < |tags| ==> TagPairs(flag, tags)[2 * k] == flag && TagPairs(flag, tags)[2 * k + 1] == tags[k]
    decreases |tags|
  {
    if tags != [] {
      var init := tags[..|tags| - 1];
      TagPairsMeaning(flag, init);
      assert forall k :: 0 <= k < |init| ==> init[k] == tags[k];
    }
  }

  /** The path given last, as str() renders a pathlib path: the suite joined
      under the tests directory, else the test file, else the tests directory. */
  function TestPath(args: Args, testsDir: string): string {
    if Given(args.suite) then JoinPath(testsDir, args.suite.value)
    else if Given(args.testFile) then PathStr(args.testFile.value)
    else PathStr(testsDir)
  }

  /** The path in the command is in normal form: no empty or "." parts, no
      trailing slash; a suite given as a plain name sits under the tests directory. */
  lemma TestPathNormal(args: Args, testsDir: string)
    ensures PathStr(TestPath(args, testsDir)) == TestPath(args, testsDir)
    ensures Given(args.suite) && Parts(testsDir) != [] && IsPart(args.suite.value) && '/' !in args.suite.value ==>
      TestPath(args, testsDir) == PathStr(testsDir) + "/" + args.suite.value
  {
    if Given(args.suite) {
      JoinPathNormal(testsDir, args.suite.value);
      if Parts(testsDir) != [] && IsPart(args.suite.value) && '/' !in args.suite.value {
        JoinPlainName(testsDir, args.suite.value);
      }
    } else {
      PathStrIdempotent(if Given(args.testFile) then args.testFile.value else testsDir);
    }
  }

  /** The output options: directory, then the three timestamped file names. */
  function OutputOptions(reportsDir: string, timestamp: string): seq<string> {
    ["--outputdir", reportsDir,
     "--output", "output_" + timestamp + ".xml",
     "--log", "log_" + timestamp + ".html",
     "--report", "report_" + timestamp + ".html"]
  }

  /** The five variables; an error when the configuration lacks one of them. */
  function VariableOptions(args: Args, config: Value): (r: Result<seq<string>>)
    ensures r.Ok? ==> |r.value| == 10
  {
    var baseUrl :- ConfigText(config, "environment", "base_url");
    var apiUrl :- ConfigText(config, "environment", "api_base_url");
    var browser :- ConfigText(config, "web", "browser");
    var headless :- ConfigText(config, "web", "headless");
    Ok(["--variable", "ENVIRONMENT:" + args.environment,
        "--variable", "BASE_URL:" + baseUrl,
        "--variable", "API_BASE_URL:" + apiUrl,
        "--variable", "BROWSER:" + browser,
        "--variable", "HEADLESS:" + headless])
  }

  /** The log level: the command-line value, else config["logging"]["level"]. */
  function LogLevel(args: Args, config: Value): Result<string> {
    if Given(args.logLevel) then Ok(args.logLevel.value)
    else ConfigText(config, "logging", "level")
  }

  /** The program run: pabot for a parallel run, robot otherwise. */
  function Program(args: Args): string {
    if args.parallel != 0 then "pabot" else "robot"
  }

  /** The words after the program up to the log level. */
  function Middle(args: Args, outputs: seq<string>, vars: seq<string>, level: string): seq<string> {
    outputs + vars
    + TagPairs("--include", args.includeTags) + TagPairs("--exclude", args.excludeTags)
    + ["--loglevel", level]
  }

  /** The words after the log level: processes, dry run, test path. */
  function Finish(args: Args, path: string): seq<string> {
    (if args.parallel != 0 then ["--processes", IntToString(args.parallel)] else [])
    + (if args.dryrun then ["--dryrun"] else [])
    + [path]
  }

  /** The command from its parts, once the configuration has been read. */
  function Assemble(args: Args, outputs: seq<string>, vars: seq<string>, level: string, path: string)
    : seq<string>
  {
    [Program(args)] + Middle(args, outputs, vars, level) + Finish(args, path)
  }

  /** The whole command as build_robot_command assembles it. */
  function RobotCommand(args: Args, config: Value, timestamp: string, reportsDir: string, testsDir: string)
    : Result<seq<string>>
  {
    var vars :- VariableOptions(args, config);
    var level :- LogLevel(args, config);
    Ok(Assemble(args, OutputOptions(reportsDir, timestamp), vars, level, TestPath(args, testsDir)))
  }

  /** cmd.extend([flag, tag]) for each tag. */
  method ExtendTagPairs(cmd: seq<string>, flag: string, tags: seq<string>) returns (r: seq<string>)
    ensures r == cmd + TagPairs(flag, tags)
  {
    r := cmd;
    var i := 0;
    while i < |tags|
      invariant 0 <= i <= |tags|
      invariant r == cmd + TagPairs(flag, tags[..i])
    {
      assert tags[..i + 1][..i] == tags[..i];
      r := r + [flag, tags[i]];
      i := i + 1;
    }
    assert tags[..i] == tags;
  }

  /** The list up to the log level, starting from "robot". */
  method ExtendMiddle(args: Args, outputs: seq<string>, vars: seq<string>, level: string)
    returns (cmd: seq<string>)
    ensures cmd == ["robot"] + Middle(args, outputs, vars, level)
  {
    cmd := ["robot"] + outputs + vars;
    cmd := ExtendTagPairs(cmd, "--include", args.includeTags);
    cmd := ExtendTagPairs(cmd, "--exclude", args.excludeTags);
    cmd := cmd + ["--loglevel", level];
  }

  /** The list built statement by statement from the configuration's words:
      "robot" first, overwritten in place by "pabot" for a parallel run. */
  method ExtendCommand(args: Args, outputs: seq<string>, vars: seq<string>, level: string, path: string)
    returns (cmd: seq<string>)
    ensures cmd == Assemble(args, outputs, vars, level, path)
  {
    cmd := ExtendMiddle(args, outputs, vars, level);
    ghost var middle := Middle(args, outputs, vars, level);
    if args.parallel != 0 {
      cmd := cmd[0 := "pabot"];
      assert cmd == ["pabot"] + middle;
      cmd := cmd + ["--processes", IntToString(args.parallel)];
    }
    ghost var afterParallel := cmd;
    if args.dryrun {
      cmd := cmd + ["--dryrun"];
    }
    cmd := cmd + [path];
    assert cmd == afterParallel + (if args.dryrun then ["--dryrun"] else []) + [path];
  }

  /** build_robot_command: the configuration is read as the list is built; a
      missing key ends it with the lookup's error. */
  method BuildRobotCommand(args: Args, config: Value, timestamp: string, reportsDir: string, testsDir: string)
    returns (r: Result<seq<string>>)
    ensures r == RobotCommand(args, config, timestamp, reportsDir, testsDir)
  {
    var vars := VariableOptions(args, config);
    if vars.Err? {
      return Err(vars.error);
    }
    var level := LogLevel(args, config);
    if level.Err? {
      return Err(level.error);
    }
    var cmd := ExtendCommand(args, OutputOptions(reportsDir, timestamp), vars.value, level.value, TestPath(args, testsDir));
    r := Ok(cmd);
  }

  // ---------------------------------------------------------------------------
  // Properties of the command

  /** The assembled command's length: 19 fixed words, two per tag, two for
      the log level, two for a parallel run, one for a dry run, one for the path. */
  lemma AssembleLength(args: Args, outputs: seq<string>, vars: seq<string>, level: string, path: string)
    requires |outputs| == 8 && |vars| == 10
    ensures |Assemble(args, outputs, vars, level, path)| ==
      19 + 2 * |args.includeTags| + 2 * |args.excludeTags| + 2 +
      (if args.parallel != 0 then 2 else 0) + (if args.dryrun then 1 else 0) + 1
  {
  }

  /** The assembled command begins with the program, the 8 output words and
      the 10 variable words. */
  lemma AssembleHead(args: Args, outputs: seq<string>, vars: seq<string>, level: string, path: string)
    requires |outputs| == 8 && |vars| == 10
    ensures var c := Assemble(args, outputs, vars, level, path);
      |c| >= 19 && c[0] == Program(args) && c[1..9] == outputs && c[9..19] == vars
  {
    var c := Assemble(args, outputs, vars, level, path);
    var m := Middle(args, outputs, vars, level);
    assert c[1..9] == m[..8];
    assert c[9..19] == m[8..18];
  }

  /** The three slices of a concatenation of four sequences. */
  lemma ConcatSlices(h: seq<string>, a: seq<string>, b: seq<string>, t: seq<string>)
    ensures var c := h + a + b + t;
      c[|h|..|h| + |a|] == a && c[|h| + |a|..|h| + |a| + |b|] == b && c[|h| + |a| + |b|..] == t
  {
  }

  /** Then come the include pairs, the exclude pairs and the log level. */
  lemma AssembleTags(args: Args, outputs: seq<string>, vars: seq<string>, level: string, path: string)
    requires |outputs| == 8 && |vars| == 10
    ensures var c := Assemble(args, outputs, vars, level, path);
      var i, e := 2 * |args.includeTags|, 2 * |args.excludeTags|;
      |c| >= 21 + i + e &&
      c[19..19 + i] == TagPairs("--include", args.includeTags) &&
      c[19 + i..19 + i + e] == TagPairs("--exclude", args.excludeTags) &&
      c[19 + i + e] == "--loglevel" && c[20 + i + e] == level
  {
    var inc, exc := TagPairs("--include", args.includeTags), TagPairs("--exclude", args.excludeTags);
    var h := [Program(args)] + outputs + vars;
    var t := ["--loglevel", level] + Finish(args, path);
    assert Assemble(args, outputs, vars, level, path) == h + inc + exc + t;
    ConcatSlices(h, inc, exc, t);
  }

  /** The command ends with "--processes" n for a parallel run, "--dryrun" for
      a dry run, and the test path. */
  lemma AssembleTail(args: Args, outputs: seq<string>, vars: seq<string>, level: string, path: string)
    requires |outputs| == 8 && |vars| == 10
    ensures var c := Assemble(args, outputs, vars, level, path);
      var i, e := 2 * |args.includeTags|, 2 * |args.excludeTags|;
      |c| >= 22 + i + e &&
      c[|c| - 1] == path &&
      (args.dryrun ==> c[|c| - 2] == "--dryrun") &&
      (args.parallel != 0 ==> c[21 + i + e] == "--processes" && c[22 + i + e] == IntToString(args.parallel))
  {
    var c := Assemble(args, outputs, vars, level, path);
    var m := Middle(args, outputs, vars, level);
    assert |m| == 20 + 2 * |args.includeTags| + 2 * |args.excludeTags|;
    var f := Finish(args, path);
    assert c[1 + |m|..] == f;
  }

  /** The command's parts: "robot" (or "pabot" for a parallel run), the output
      options with the timestamp, the five "--variable" pairs, the include and
      exclude pairs, the log level, "--processes" n, "--dryrun", the path. */
  lemma CommandParts(args: Args, config: Value, timestamp: string, reportsDir: string, testsDir: string)
    requires RobotCommand(args, config, timestamp, reportsDir, testsDir).Ok?
    ensures var c := RobotCommand(args, config, timestamp, reportsDir, testsDir).value;
      var i, e := 2 * |args.includeTags|, 2 * |args.excludeTags|;
      |c| == 21 + i + e + (if args.parallel != 0 then 2 else 0) + (if args.dryrun then 1 else 0) + 1 &&
      c[0] == (if args.parallel != 0 then "pabot" else "robot") &&
      c[1..9] == ["--outputdir", reportsDir, "--output", "output_" + timestamp + ".xml",
                  "--log", "log_" + timestamp + ".html", "--report", "report_" + timestamp + ".html"] &&
      c[9..19] == VariableOptions(args, config).value &&
      c[19..19 + i] == TagPairs("--include", args.includeTags) &&
      c[19 + i..19 + i + e] == TagPairs("--exclude", args.excludeTags) &&
      c[19 + i + e] == "--loglevel" && c[20 + i + e] == LogLevel(args, config).value &&
      c[|c| - 1] == TestPath(args, testsDir) &&
      (args.dryrun ==> c[|c| - 2] == "--dryrun") &&
      (args.parallel != 0 ==> c[21 + i + e] == "--processes" && c[22 + i + e] == IntToString(args.parallel))
  {
    var outputs := OutputOptions(reportsDir, timestamp);
    var vars := VariableOptions(args, config).value;
    var level := LogLevel(args, config).value;
    AssembleLength(args, outputs, vars, level, TestPath(args, testsDir));
    AssembleHead(args, outputs, vars, level, TestPath(args, testsDir));
    AssembleTags(args, outputs, vars, level, TestPath(args, testsDir));
    AssembleTail(args, outputs, vars, level, TestPath(args, testsDir));
  }

  /** Each include tag follows "--include", in argument order; each exclude
      tag follows "--exclude", in argument order. */
  lemma TagPairsAt(flag: string, tags: seq<string>, c: seq<string>, at: int)
    requires 0 <= at && at + 2 * |tags| <= |c| && c[at..at + 2 * |tags|] == TagPairs(flag, tags)
    ensures forall k :: 0 <= k < |tags| ==> c[at + 2 * k] == flag && c[at + 2 * k + 1] == tags[k]
  {
    TagPairsMeaning(flag, tags);
    forall k | 0 <= k < |tags| ensures c[at + 2 * k] == flag && c[at + 2 * k + 1] == tags[k] {
      assert c[at + 2 * k] == c[at..at + 2 * |tags|][2 * k];
      assert c[at + 2 * k + 1] == c[at..at + 2 * |tags|][2 * k + 1];
    }
  }

  /** In the assembled command each include tag follows "--include", in
      argument order, and then each exclude tag follows "--exclude". */
  lemma AssembleTagPositions(args: Args, outputs: seq<string>, vars: seq<string>, level: string, path: string)
    requires |outputs| == 8 && |vars| == 10
    ensures var c := Assemble(args, outputs, vars, level, path);
      var i, e := |args.includeTags|, |args.excludeTags|;
      |c| >= 21 + 2 * i + 2 * e &&
      (forall k :: 0 <= k < i ==> c[19 + 2 * k] == "--include" && c[19 + 2 * k + 1] == args.includeTags[k]) &&
      (forall k :: 0 <= k < e ==>
         c[19 + 2 * i + 2 * k] == "--exclude" && c[19 + 2 * i + 2 * k + 1] == args.excludeTags[k])
  {
    AssembleTags(args, outputs, vars, level, path);
    var c := Assemble(args, outputs, vars, level, path);
    TagPairsAt("--include", args.includeTags, c, 19);
    var at := 19 + 2 * |args.includeTags|;
    TagPairsAt("--exclude", args.excludeTags, c, at);
    forall k | 0 <= k < |args.excludeTags|
      ensures c[19 + 2 * |args.includeTags| + 2 * k] == "--exclude"
      ensures c[19 + 2 * |args.includeTags| + 2 * k + 1] == args.excludeTags[k]
    {
      assert c[at + 2 * k] == "--exclude" && c[at + 2 * k + 1] == args.excludeTags[k];
    }
  }

  /** The include pairs come first, each tag right after "--include", in
      argument order; the exclude pairs follow in the same way. */
  lemma CommandTags(args: Args, config: Value, timestamp: string, reportsDir: string, testsDir: string)
    requires RobotCommand(args, config, timestamp, reportsDir, testsDir).Ok?
    ensures var c := RobotCommand(args, config, timestamp, reportsDir, testsDir).value;
      var i, e := |args.includeTags|, |args.excludeTags|;
      |c| >= 21 + 2 * i + 2 * e &&
      (forall k :: 0 <= k < i ==> c[19 + 2 * k] == "--include" && c[19 + 2 * k + 1] == args.includeTags[k]) &&
      (forall k :: 0 <= k < e ==>
         c[19 + 2 * i + 2 * k] == "--exclude" && c[19 + 2 * i + 2 * k + 1] == args.excludeTags[k])
  {
    AssembleTagPositions(args, OutputOptions(reportsDir, timestamp), VariableOptions(args, config).value,
                         LogLevel(args, config).value, TestPath(args, testsDir));
  }

  /** With a level on the command line the configuration needs no logging
      section; without one, a configuration lacking it fails with KeyError. */
  lemma LoggingSectionNeededOnlyWithoutLevel(args: Args, config: Value)
    requires config.Dict? && !HasKey(config.entries, "logging")
    requires VariableOptions(args, config).Ok?
    ensures Given(args.logLevel) ==> RobotCommand(args, config, "", "", "").Ok?
    ensures !Given(args.logLevel) ==> RobotCommand(args, config, "", "", "") == Err(KeyError)
  {
  }

  /** A configuration without an "environment" section fails with KeyError. */
  lemma MissingEnvironmentSection(args: Args, config: Value, timestamp: string, reportsDir: string, testsDir: string)
    requires config.Dict? && !HasKey(config.entries, "environment")
    ensures RobotCommand(args, config, timestamp, reportsDir, testsDir) == Err(KeyError)
  {
  }
}
