/** The environment setup script: the interpreter version gate, the choice of
    driver archive for the platform, what is done with a downloaded archive,
    the driver executable's name, and the order and gating of the setup
    stages. Downloads, subprocess probes and file writes are not modelled:
    their outcomes are parameters. */
module SetupEnvironment {
  import opened Base

  // ---------------------------------------------------------------------------
  // Interpreter version

  /** validate_python_version: sys.version_info[:2] compared with (3, 8). */
  function VersionAccepted(major: int, minor: int): bool {
    !(major < 3 || (major == 3 && minor < 8))
  }

  /** The gate is the lexicographic order on (major, minor): 3.8 passes, 3.7
      and 2.x fail, and any later version passes. */
  lemma VersionAcceptedMeaning(major: int, minor: int)
    ensures VersionAccepted(major, minor) <==> major > 3 || (major == 3 && minor >= 8)
    ensures VersionAccepted(3, 8) && !VersionAccepted(3, 7) && !VersionAccepted(2, 99)
  {
  }

  /** A version accepted stays accepted when either component grows. */
  lemma VersionAcceptedMonotone(major: int, minor: int, major': int, minor': int)
    requires VersionAccepted(major, minor)
    requires major' > major || (major' == major && minor' >= minor)
    ensures VersionAccepted(major', minor')
  {
  }

  // ---------------------------------------------------------------------------
  // validate_dependencies

  const RequiredPackages: seq<string> := [
    "robotframework", "robotframework-seleniumlibrary", "robotframework-requests",
    "selenium", "requests", "pyyaml"]

  /** `package.replace("-", "_")`, the name validate_dependencies hands to
      __import__. */
  function DashToUnderscore(s: string): (r: string)
    ensures |r| == |s|
  {
    seq(|s|, k requires 0 <= k < |s| => if s[k] == '-' then '_' else s[k])
  }

  /** Each '-' becomes '_' and every other character is kept, so the
      replacement leaves no dash, keeps a dash-free name as it is, and
      changes nothing the second time. */
  lemma DashToUnderscoreMeaning(s: string)
    ensures forall k :: 0 <= k < |s| ==>
      DashToUnderscore(s)[k] == (if s[k] == '-' then '_' else s[k])
    ensures '-' !in DashToUnderscore(s)
    ensures '-' !in s ==> DashToUnderscore(s) == s
    ensures DashToUnderscore(DashToUnderscore(s)) == DashToUnderscore(s)
  {
    var r := DashToUnderscore(s);
    assert forall k :: 0 <= k < |r| ==> r[k] != '-';
  }

  /** The packages, in list order, whose module cannot be imported;
      `moduleOf` gives the name imported for a package and `importable`
      stands for the outcome of __import__ on that name. The package's own
      name is what is recorded. */
  function MissingPackages(packages: seq<string>, moduleOf: string -> string, importable: string -> bool)
    : (r: seq<string>)
    ensures |r| <= |packages|
  {
    if packages == [] then []
    else
      var last := packages[|packages| - 1];
      MissingPackages(packages[..|packages| - 1], moduleOf, importable)
        + (if importable(moduleOf(last)) then [] else [last])
  }

  /** Nothing is missing exactly when every package's module imports. */
  lemma {:induction false} MissingPackagesEmptyIff(packages: seq<string>, moduleOf: string -> string,
                                                   importable: string -> bool)
    ensures MissingPackages(packages, moduleOf, importable) == [] <==>
      forall k :: 0 <= k < |packages| ==> importable(moduleOf(packages[k]))
    decreases |packages|
  {
    if packages != [] {
      var init := packages[..|packages| - 1];
      MissingPackagesEmptyIff(init, moduleOf, importable);
      assert forall k :: 0 <= k < |init| ==> init[k] == packages[k];
    }
  }

  /** A package is reported exactly when it is listed and its module does not import. */
  lemma {:induction false} MissingPackagesMeaning(packages: seq<string>, moduleOf: string -> string,
                                                  importable: string -> bool, p: string)
    ensures p in MissingPackages(packages, moduleOf, importable) <==>
      p in packages && !importable(moduleOf(p))
    decreases |packages|
  {
    if packages != [] {
      var init := packages[..|packages| - 1];
      MissingPackagesMeaning(init, moduleOf, importable, p);
      assert packages == init + [packages[|packages| - 1]];
    }
  }

  /** The loop of validate_dependencies, importing each package under its
      dashes-to-underscores name: true exactly when nothing is missing. */
  method ValidateDependencies(importable: string -> bool) returns (ok: bool, missing: seq<string>)
    ensures missing == MissingPackages(RequiredPackages, DashToUnderscore, importable)
    ensures ok <==> missing == []
  {
    missing := [];
    var i := 0;
    while i < |RequiredPackages|
      invariant 0 <= i <= |RequiredPackages|
      invariant missing == MissingPackages(RequiredPackages[..i], DashToUnderscore, importable)
    {
      assert RequiredPackages[..i + 1][..i] == RequiredPackages[..i];
      if !importable(DashToUnderscore(RequiredPackages[i])) {
        missing := missing + [RequiredPackages[i]];
      }
      i := i + 1;
    }
    assert RequiredPackages[..i] == RequiredPackages;
    ok := missing == [];
  }

  /** The top-level modules the six distributions install: robotframework
      provides `robot`, the two libraries `SeleniumLibrary` and
      `RequestsLibrary`, and pyyaml provides `yaml`. */
  const InstalledModules: seq<string> := [
    "robot", "SeleniumLibrary", "RequestsLibrary", "selenium", "requests", "yaml"]

  /** An environment where exactly the installed modules import. */
  predicate Installed(name: string) {
    name in InstalledModules
  }

  /** One more package of the list adds itself exactly when its module does not import. */
  lemma MissingPackagesStep(packages: seq<string>, i: int, moduleOf: string -> string, importable: string -> bool)
    requires 0 <= i < |packages|
    ensures MissingPackages(packages[..i + 1], moduleOf, importable) ==
      MissingPackages(packages[..i], moduleOf, importable)
        + (if importable(moduleOf(packages[i])) then [] else [packages[i]])
  {
    assert packages[..i + 1][..i] == packages[..i];
  }

  /** A name of a length no installed module has does not import. */
  lemma NotInstalledByLength(name: string)
    requires |name| != 4 && |name| != 5 && |name| != 8 && |name| != 15
    ensures !Installed(name)
  {
  }

  /** As written, which of the six names import on a complete installation. */
  lemma AsWrittenImports()
    ensures !Installed(DashToUnderscore(RequiredPackages[0]))
    ensures !Installed(DashToUnderscore(RequiredPackages[1]))
    ensures !Installed(DashToUnderscore(RequiredPackages[2]))
    ensures Installed(DashToUnderscore(RequiredPackages[3]))
    ensures Installed(DashToUnderscore(RequiredPackages[4]))
    ensures !Installed(DashToUnderscore(RequiredPackages[5]))
  {
    var ps := RequiredPackages;
    NotInstalledByLength(DashToUnderscore(ps[0]));
    NotInstalledByLength(DashToUnderscore(ps[1]));
    NotInstalledByLength(DashToUnderscore(ps[2]));
    DashToUnderscoreMeaning(ps[3]);
    DashToUnderscoreMeaning(ps[4]);
    NotInstalledByLength(DashToUnderscore(ps[5]));
  }

  /** As written, a complete installation still fails the check: four of
      the six dashes-to-underscores names are not the names of any module
      the distributions install, and only selenium and requests pass. */
  lemma AsWrittenRejectsInstall()
    ensures MissingPackages(RequiredPackages, DashToUnderscore, Installed) ==
      [RequiredPackages[0], RequiredPackages[1], RequiredPackages[2], RequiredPackages[5]]
  {
    var ps := RequiredPackages;
    AsWrittenImports();
    MissingPackagesStep(ps, 0, DashToUnderscore, Installed);
    assert ps[..0] == [];
    var m1 := MissingPackages(ps[..1], DashToUnderscore, Installed);
    assert m1 == [ps[0]];
    MissingPackagesStep(ps, 1, DashToUnderscore, Installed);
    var m2 := MissingPackages(ps[..2], DashToUnderscore, Installed);
    assert m2 == m1 + [ps[1]];
    MissingPackagesStep(ps, 2, DashToUnderscore, Installed);
    var m3 := MissingPackages(ps[..3], DashToUnderscore, Installed);
    assert m3 == m2 + [ps[2]];
    MissingPackagesStep(ps, 3, DashToUnderscore, Installed);
    MissingPackagesStep(ps, 4, DashToUnderscore, Installed);
    var m5 := MissingPackages(ps[..5], DashToUnderscore, Installed);
    assert m5 == m3;
    MissingPackagesStep(ps, 5, DashToUnderscore, Installed);
    assert ps[..6] == ps;
  }

  /** The import name of each required package, as the distributions publish it. */
  function ModuleName(package: string): string {
    if package == "robotframework" then "robot"
    else if package == "robotframework-seleniumlibrary" then "SeleniumLibrary"
    else if package == "robotframework-requests" then "RequestsLibrary"
    else if package == "pyyaml" then "yaml"
    else DashToUnderscore(package)
  }

  /** The corrected names of the six required packages are the installed modules, in order. */
  lemma ModuleNamesOfRequired()
    ensures forall k :: 0 <= k < |RequiredPackages| ==> ModuleName(RequiredPackages[k]) == InstalledModules[k]
  {
    DashToUnderscoreMeaning(RequiredPackages[3]);
    DashToUnderscoreMeaning(RequiredPackages[4]);
  }

  /** With the corrected names a complete installation passes, and any
      environment passes exactly when each package's real module imports. */
  lemma ModuleNamesAcceptInstall(importable: string -> bool)
    ensures MissingPackages(RequiredPackages, ModuleName, Installed) == []
    ensures MissingPackages(RequiredPackages, ModuleName, importable) == [] <==>
      forall k :: 0 <= k < |InstalledModules| ==> importable(InstalledModules[k])
  {
    ModuleNamesOfRequired();
    MissingPackagesEmptyIff(RequiredPackages, ModuleName, Installed);
    MissingPackagesEmptyIff(RequiredPackages, ModuleName, importable);
    assert forall k :: 0 <= k < |InstalledModules| ==> Installed(InstalledModules[k]);
  }

  // ---------------------------------------------------------------------------
  // Chrome driver

  /** The platform part of the chromedriver archive name for the
      (lower-cased) platform name and machine. */
  function ChromePlatform(system: string, architecture: string): string {
    if system == "windows" then "win32"
    else if system == "darwin" then
      if Contains(architecture, "arm64") || Contains(architecture, "m1") then "mac_arm64"
      else "mac64"
    else "linux64"
  }

  /** The chromedriver archive: chromedriver_win32.zip, chromedriver_mac_arm64.zip,
      chromedriver_mac64.zip or chromedriver_linux64.zip. */
  function ChromeFilename(system: string, architecture: string): string {
    "chromedriver_" + ChromePlatform(system, architecture) + ".zip"
  }

  /** get_chrome_driver_url: the latest-release text (None when the request
      fails) gives the version, and the URL is base, version, "/", filename. */
  function ChromeDriverUrl(baseUrl: string, latest: Option<string>, system: string, architecture: string)
    : (r: Option<(string, string)>)
    ensures latest.None? <==> r.None?
    ensures r.Some? ==> r.value.1 == Strip(latest.value)
  {
    match latest
    case None => None
    case Some(text) =>
      var version := Strip(text);
      Some((baseUrl + version + "/" + ChromeFilename(system, architecture), version))
  }

  /** The last path segment of a URL ending in "/" + a slash-free name is that name. */
  lemma AfterLastSlashOfSegment(prefix: string, name: string)
    requires '/' !in name
    ensures AfterLastSlash(prefix + "/" + name) == name
  {
    var s := prefix + "/" + name;
    var r := AfterLastSlash(s);
    assert s[|s| - |name| - 1] == '/';
    assert s[|s| - |name|..] == name;
  }

  /** Every Chrome archive name is a slash-free ".zip" name. */
  lemma ChromeFilenameIsZip(system: string, architecture: string)
    ensures '/' !in ChromeFilename(system, architecture)
    ensures EndsWith(ChromeFilename(system, architecture), ".zip")
  {
    var p := ChromePlatform(system, architecture);
    assert '/' !in p;
    var name := "chromedriver_" + p + ".zip";
    assert name[|name| - 4..] == ".zip";
  }

  /** The Chrome URL is downloaded under the platform's filename and unzipped. */
  lemma ChromeDownloadIsPlatformZip(baseUrl: string, text: string, system: string, architecture: string)
    ensures var r := ChromeDriverUrl(baseUrl, Some(text), system, architecture);
      r.Some? && DownloadFilename(r.value.0) == ChromeFilename(system, architecture) &&
      ArchiveOf(DownloadFilename(r.value.0)) == Zip
  {
    var version := Strip(text);
    var name := ChromeFilename(system, architecture);
    assert baseUrl + version + "/" + name == (baseUrl + version) + "/" + name;
    ChromeFilenameIsZip(system, architecture);
    AfterLastSlashOfSegment(baseUrl + version, name);
  }

  // ---------------------------------------------------------------------------
  // Firefox driver

  /** One entry of the release's asset list. */
  datatype Asset = Asset(name: string, downloadUrl: string)

  /** The latest geckodriver release as the GitHub API reports it. */
  datatype Release = Release(tagName: string, assets: seq<Asset>)

  /** The asset rule of get_firefox_driver_url, on the lower-cased asset name. */
  predicate AssetMatches(system: string, asset: Asset) {
    var n := Lower(asset.name);
    (system == "windows" && Contains(n, "win") && EndsWith(n, ".zip"))
    || (system == "darwin" && Contains(n, "macos") && EndsWith(n, ".tar.gz"))
    || (system == "linux" && Contains(n, "linux") && EndsWith(n, ".tar.gz"))
  }

  /** The first asset in list order that matches the platform. */
  function FirstMatchingAsset(system: string, assets: seq<Asset>): Option<Asset> {
    if assets == [] then None
    else if AssetMatches(system, assets[0]) then Some(assets[0])
    else FirstMatchingAsset(system, assets[1..])
  }

  /** The choice is the first match: nothing before it matches, and None means
      that no asset matches. */
  lemma {:induction false} FirstMatchingAssetMeaning(system: string, assets: seq<Asset>)
    ensures FirstMatchingAsset(system, assets).None? <==>
      forall k :: 0 <= k < |assets| ==> !AssetMatches(system, assets[k])
    ensures FirstMatchingAsset(system, assets).Some? ==>
      exists k :: 0 <= k < |assets| && assets[k] == FirstMatchingAsset(system, assets).value &&
        AssetMatches(system, assets[k]) && forall j :: 0 <= j < k ==> !AssetMatches(system, assets[j])
    decreases |assets|
  {
    if assets != [] && !AssetMatches(system, assets[0]) {
      var rest := assets[1..];
      FirstMatchingAssetMeaning(system, rest);
      assert forall k :: 0 <= k < |rest| ==> rest[k] == assets[k + 1];
      if FirstMatchingAsset(system, rest).Some? {
        var k :| 0 <= k < |rest| && rest[k] == FirstMatchingAsset(system, rest).value &&
          AssetMatches(system, rest[k]) && forall j :: 0 <= j < k ==> !AssetMatches(system, rest[j]);
        forall j | 0 <= j < k + 1 ensures !AssetMatches(system, assets[j]) {
          if j > 0 { assert assets[j] == rest[j - 1]; }
        }
        assert assets[k + 1] == rest[k];
      }
      if forall k :: 0 <= k < |rest| ==> !AssetMatches(system, rest[k]) {
        forall k | 0 <= k < |assets| ensures !AssetMatches(system, assets[k]) {
          if k > 0 { assert assets[k] == rest[k - 1]; }
        }
      }
    }
  }

  /** The asset loop of get_firefox_driver_url, with its early return. */
  method FindFirefoxAsset(system: string, assets: seq<Asset>) returns (r: Option<Asset>)
    ensures r == FirstMatchingAsset(system, assets)
  {
    var i := 0;
    while i < |assets|
      invariant 0 <= i <= |assets|
      invariant FirstMatchingAsset(system, assets) == FirstMatchingAsset(system, assets[i..])
    {
      assert assets[i..][1..] == assets[i + 1..];
      if AssetMatches(system, assets[i]) {
        return Some(assets[i]);
      }
      i := i + 1;
    }
    return None;
  }

  /** get_firefox_driver_url: (download URL, tag) of the chosen asset; None when
      the release could not be fetched or no asset matches. */
  method FirefoxDriverUrl(system: string, release: Option<Release>) returns (r: Option<(string, string)>)
    ensures release.None? ==> r.None?
    ensures release.Some? ==>
      match FirstMatchingAsset(system, release.value.assets)
      case None => r.None?
      case Some(a) => r == Some((a.downloadUrl, release.value.tagName))
  {
    if release.None? {
      return None;
    }
    var asset := FindFirefoxAsset(system, release.value.assets);
    if asset.None? {
      return None;
    }
    return Some((asset.value.downloadUrl, release.value.tagName));
  }

  // ---------------------------------------------------------------------------
  // Downloaded archives

  /** url.split("/")[-1] */
  function DownloadFilename(url: string): string {
    AfterLastSlash(url)
  }

  datatype Archive = Zip | TarGz | NotExtracted

  /** Which extractor download_and_extract_driver applies to the file. */
  function ArchiveOf(filename: string): (a: Archive)
    ensures a == Zip <==> EndsWith(filename, ".zip")
    ensures a == TarGz <==> !EndsWith(filename, ".zip") && EndsWith(filename, ".tar.gz")
  {
    if EndsWith(filename, ".zip") then Zip
    else if EndsWith(filename, ".tar.gz") then TarGz
    else NotExtracted
  }

  /** A ".tar.gz" name never ends in ".zip", so it is untarred. */
  lemma TarGzIsUntarred(filename: string)
    requires EndsWith(filename, ".tar.gz")
    ensures ArchiveOf(filename) == TarGz
  {
    assert filename[|filename| - 1] == 'z';
  }

  // ---------------------------------------------------------------------------
  // Driver executables

  /** The index of the last '.' in `name`, or -1. */
  function LastDot(name: string): (i: int)
    ensures -1 <= i < |name|
    ensures i >= 0 ==> name[i] == '.'
    ensures forall k :: i < k < |name| ==> name[k] != '.'
  {
    if name == [] then -1
    else if name[|name| - 1] == '.' then |name| - 1
    else LastDot(name[..|name| - 1])
  }

  /** PurePath.suffix: from the last dot, unless that dot is the first or the
      last character. */
  function Suffix(name: string): (r: string)
    ensures r == [] || (r[0] == '.' && EndsWith(name, r))
  {
    var i := LastDot(name);
    if 0 < i < |name| - 1 then name[i..] else []
  }

  /** PurePath.with_suffix on a file name. */
  function WithSuffix(name: string, suffix: string): string {
    var current := Suffix(name);
    name[..|name| - |current|] + suffix
  }

  /** The path validate_driver_installation checks: the executable name, with
      ".exe" on Windows. */
  function DriverFile(system: string, executable: string): string {
    if system == "windows" then WithSuffix(executable, ".exe") else executable
  }

  /** A name without a dot gets ".exe" appended on Windows and is unchanged elsewhere. */
  lemma DriverFileOfPlainName(system: string, executable: string)
    requires '.' !in executable
    ensures system == "windows" ==> DriverFile(system, executable) == executable + ".exe"
    ensures system != "windows" ==> DriverFile(system, executable) == executable
  {
    assert LastDot(executable) == -1;
    assert executable[..|executable|] == executable;
  }

  /** Both drivers the script checks end in ".exe" on Windows. */
  lemma DriverFilesOnWindows()
    ensures DriverFile("windows", "chromedriver") == "chromedriver.exe"
    ensures DriverFile("windows", "geckodriver") == "geckodriver.exe"
  {
    DriverFileOfPlainName("windows", "chromedriver");
    DriverFileOfPlainName("windows", "geckodriver");
  }

  // ---------------------------------------------------------------------------
  // run_setup

  /** The stages after validation, in the order run_setup performs them. */
  datatype Stage =
    | Directories | BrowserCheck | ChromeInstall | FirefoxInstall
    | DriverValidation | ActivationScript | ValidationReport | PathHint

  /** run_setup: two validations that can end the run, the validate-only exit,
      then the setup stages. `validDrivers` is what the driver validation
      finds before any install; installs are attempted only when asked for or
      when none is valid, and then only for the browsers found. */
  method RunSetup(major: int, minor: int, importable: string -> bool, validateOnly: bool,
                  updateDrivers: bool, installedBrowsers: seq<string>, validDrivers: seq<string>)
    returns (ok: bool, stages: seq<Stage>)
    ensures ok <==> VersionAccepted(major, minor) && MissingPackages(RequiredPackages, DashToUnderscore, importable) == []
    ensures !ok || validateOnly ==> stages == []
    ensures ok && !validateOnly ==>
      (|stages| >= 6 && stages[..2] == [Directories, BrowserCheck] &&
       stages[|stages| - 4..] == [DriverValidation, ActivationScript, ValidationReport, PathHint])
    ensures ChromeInstall in stages <==>
      ok && !validateOnly && (updateDrivers || validDrivers == []) && "chrome" in installedBrowsers
    ensures FirefoxInstall in stages <==>
      ok && !validateOnly && (updateDrivers || validDrivers == []) && "firefox" in installedBrowsers
  {
    stages := [];
    if !VersionAccepted(major, minor) {
      return false, stages;
    }
    var depsOk, missing := ValidateDependencies(importable);
    if !depsOk {
      return false, stages;
    }
    if validateOnly {
      return true, stages;
    }
    stages := [Directories, BrowserCheck];
    var installs := [];
    if updateDrivers || validDrivers == [] {
      if "chrome" in installedBrowsers {
        installs := installs + [ChromeInstall];
      }
      if "firefox" in installedBrowsers {
        installs := installs + [FirefoxInstall];
      }
    }
    stages := stages + installs + [DriverValidation, ActivationScript, ValidationReport, PathHint];
    assert stages[..2] == [Directories, BrowserCheck];
    ok := true;
  }
}
