/** The dependency installer: a package list chosen by the interpreter
    version, package names cut out of the requirement specifiers, the
    installs recorded one by one, and the exit code of the whole run.
    pip and the import checks are not modelled: whether a pip install
    succeeds is the parameter `pipOk`, applied to the specifier it is given. */
module InstallDependencies {
  import opened Base

  /** (major, minor) >= (m, n), compared lexicographically as Python compares
      version_info with a pair. */
  predicate AtLeast(major: int, minor: int, m: int, n: int) {
    major > m || (major == m && minor >= n)
  }

  const Python312Packages: seq<string> := [
    "robotframework>=7.0", "selenium>=4.16.0", "robotframework-seleniumlibrary>=6.1.0",
    "robotframework-requests>=0.9.0", "webdriver-manager>=4.0.0", "requests>=2.28.0",
    "pyyaml>=6.0"]

  const Python39Packages: seq<string> := [
    "robotframework>=6.0,<7.0", "selenium>=4.10.0,<4.16.0",
    "robotframework-seleniumlibrary>=6.0.0,<6.6.0", "robotframework-requests>=0.9.0",
    "webdriver-manager>=3.8.0", "requests>=2.28.0", "pyyaml>=6.0"]

  const Python38Packages: seq<string> := [
    "robotframework>=5.0,<6.0", "selenium>=4.5.0,<4.10.0",
    "robotframework-seleniumlibrary>=5.1.0,<6.0.0", "robotframework-requests>=0.9.0",
    "webdriver-manager>=3.5.0", "requests>=2.25.0", "pyyaml>=5.4"]

  /** The core package list for an interpreter version. */
  function CorePackages(major: int, minor: int): (r: seq<string>)
    ensures |r| == 7
  {
    if AtLeast(major, minor, 3, 12) then Python312Packages
    else if AtLeast(major, minor, 3, 9) then Python39Packages
    else Python38Packages
  }

  /** Which list each interpreter version gets. */
  lemma CorePackagesByVersion(major: int, minor: int)
    ensures major > 3 || (major == 3 && minor >= 12) ==> CorePackages(major, minor) == Python312Packages
    ensures major == 3 && 9 <= minor <= 11 ==> CorePackages(major, minor) == Python39Packages
    ensures major < 3 || (major == 3 && minor <= 8) ==> CorePackages(major, minor) == Python38Packages
  {
  }

  /** s.split(sep)[0]: the text before the first occurrence of `sep`, or all
      of `s` when it does not occur. */
  function Before(s: string, sep: string): (r: string)
    requires |sep| > 0
    ensures |r| <= |s|
    decreases |s|
  {
    if |s| < |sep| then s
    else if s[..|sep|] == sep then []
    else [s[0]] + Before(s[1..], sep)
  }

  /** A slice of s past its first element is the same slice of s[1..], one place earlier. */
  lemma ShiftSlice(s: string, i: int, n: nat)
    requires 1 <= i && i + n <= |s|
    ensures s[i..i + n] == s[1..][i - 1..i - 1 + n]
  {
    var x, y := s[i..i + n], s[1..][i - 1..i - 1 + n];
    assert forall k :: 0 <= k < n ==> x[k] == y[k];
  }

  /** Before cuts at the first occurrence and nowhere else. */
  lemma {:induction false} BeforeMeaning(s: string, sep: string)
    requires |sep| > 0
    ensures StartsWith(s, Before(s, sep))
    ensures forall i :: 0 <= i < |Before(s, sep)| ==> !OccursAt(s, sep, i)
    ensures |Before(s, sep)| < |s| ==> OccursAt(s, sep, |Before(s, sep)|)
    decreases |s|
  {
    if |s| >= |sep| && s[..|sep|] != sep {
      var rest := s[1..];
      BeforeMeaning(rest, sep);
      var r := Before(s, sep);
      assert r == [s[0]] + Before(rest, sep);
      forall i | 0 <= i < |r| ensures !OccursAt(s, sep, i) {
        if i > 0 && OccursAt(s, sep, i) {
          ShiftSlice(s, i, |sep|);
          assert OccursAt(rest, sep, i - 1);
        }
      }
      if |r| < |s| {
        ShiftSlice(s, |r|, |sep|);
      }
    }
  }

  /** package.split(">=")[0].split("==")[0] */
  function PackageName(spec: string): string {
    Before(Before(spec, ">="), "==")
  }

  /** Cutting at `sep` where it first follows a name free of its first character. */
  lemma {:induction false} BeforeSeparator(name: string, sep: string, rest: string)
    requires |sep| > 0 && sep[0] !in name
    ensures Before(name + sep + rest, sep) == name
    decreases |name|
  {
    var s := name + sep + rest;
    if name == [] {
      assert s[..|sep|] == sep;
    } else {
      assert s[0] == name[0];
      assert s[..|sep|][0] == name[0];
      assert s[1..] == name[1..] + sep + rest;
      BeforeSeparator(name[1..], sep, rest);
    }
  }

  /** A string free of the separator's first character is not cut. */
  lemma {:induction false} BeforeAbsent(s: string, sep: string)
    requires |sep| > 0 && sep[0] !in s
    ensures Before(s, sep) == s
    decreases |s|
  {
    if |s| >= |sep| {
      assert s[..|sep|][0] == s[0];
      assert s[1..] + [] == s[1..];
      BeforeAbsent(s[1..], sep);
      assert [s[0]] + s[1..] == s;
    }
  }

  /** The name of a specifier "name>=constraint", as every core specifier is
      written, is the name. */
  lemma NameOf(name: string, constraint: string)
    requires '>' !in name && '=' !in name
    ensures PackageName(name + ">=" + constraint) == name
  {
    BeforeSeparator(name, ">=", constraint);
    BeforeAbsent(name, "==");
  }

  /** The names of the packages whose install failed, in list order. */
  function FailedNames(packages: seq<string>, pipOk: string -> bool): (r: seq<string>)
    ensures |r| <= |packages|
  {
    if packages == [] then []
    else
      var last := packages[|packages| - 1];
      FailedNames(packages[..|packages| - 1], pipOk) + (if pipOk(last) then [] else [PackageName(last)])
  }

  /** A failed name belongs to a package that failed, and every package that
      failed has its name recorded. */
  lemma {:induction false} FailedNamesMeaning(packages: seq<string>, pipOk: string -> bool)
    ensures forall x :: x in FailedNames(packages, pipOk) ==>
      exists k :: 0 <= k < |packages| && !pipOk(packages[k]) && x == PackageName(packages[k])
    ensures forall k :: 0 <= k < |packages| && !pipOk(packages[k]) ==>
      PackageName(packages[k]) in FailedNames(packages, pipOk)
    decreases |packages|
  {
    if packages != [] {
      var init := packages[..|packages| - 1];
      FailedNamesMeaning(init, pipOk);
      assert forall k :: 0 <= k < |init| ==> init[k] == packages[k];
    }
  }

  /** No failure is recorded exactly when every install succeeded. */
  lemma FailedNamesEmptyIff(packages: seq<string>, pipOk: string -> bool)
    ensures FailedNames(packages, pipOk) == [] <==> forall k :: 0 <= k < |packages| ==> pipOk(packages[k])
  {
    FailedNamesMeaning(packages, pipOk);
    if FailedNames(packages, pipOk) != [] {
      assert FailedNames(packages, pipOk)[0] in FailedNames(packages, pipOk);
    }
  }

  /** The install loop of install_core_dependencies. */
  method InstallCoreDependencies(major: int, minor: int, pipOk: string -> bool)
    returns (failed: seq<string>)
    ensures failed == FailedNames(CorePackages(major, minor), pipOk)
  {
    var packages := CorePackages(major, minor);
    failed := [];
    var i := 0;
    while i < |packages|
      invariant 0 <= i <= |packages|
      invariant failed == FailedNames(packages[..i], pipOk)
    {
      assert packages[..i + 1][..i] == packages[..i];
      var name := PackageName(packages[i]);
      if !pipOk(packages[i]) {
        failed := failed + [name];
      }
      i := i + 1;
    }
    assert packages[..i] == packages;
  }

  /** The stages that main reaches. */
  datatype Stage = CoreInstall | OptionalInstall | DevInstall | Verification

  /** main: the virtual-environment gate, the core installs, and the later
      stages reached only when every core install succeeded. */
  method RunInstallation(inVirtualEnv: bool, continueAnswer: string, major: int, minor: int,
                         pipOk: string -> bool, devAnswer: string, importsOk: bool)
    returns (exitCode: int, stages: seq<Stage>)
    ensures !inVirtualEnv && Lower(continueAnswer) != "y" ==> exitCode == 1 && stages == []
    ensures (inVirtualEnv || Lower(continueAnswer) == "y") ==> |stages| > 0 && stages[0] == CoreInstall
    ensures OptionalInstall in stages <==>
      (inVirtualEnv || Lower(continueAnswer) == "y") && FailedNames(CorePackages(major, minor), pipOk) == []
    ensures DevInstall in stages <==> OptionalInstall in stages && Lower(devAnswer) == "y"
    ensures exitCode == 0 <==> OptionalInstall in stages && importsOk
    ensures exitCode == 0 || exitCode == 1
  {
    if !inVirtualEnv && Lower(continueAnswer) != "y" {
      return 1, [];
    }
    var failedCore := InstallCoreDependencies(major, minor, pipOk);
    if failedCore != [] {
      return 1, [CoreInstall];
    }
    stages := [CoreInstall, OptionalInstall];
    if Lower(devAnswer) == "y" {
      stages := stages + [DevInstall];
    }
    stages := stages + [Verification];
    exitCode := if importsOk then 0 else 1;
  }
}
