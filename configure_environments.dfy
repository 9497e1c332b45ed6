/** The environment configurator: loading a configuration file with the
    `${VAR}` / `${VAR:-default}` substitution applied to its text, the
    rule-based validation of the loaded configuration, and the overall health
    decision over the configured environments. The file system, the
    environment variables, yaml.safe_load and the HTTP probes are parameters:
    `files` maps a configuration file name to its text (None when it is
    missing or unreadable), `env` is os.environ, `parse` is the YAML loader
    (None when it raises), `accessible` and `healthy` are the outcomes of the
    base-URL and API-health probes. */
module ConfigureEnvironments {
  import opened Base
  import opened PyValue

  /** The keys of the configurator's environment table, in order. */
  const Environments: seq<string> := ["dev", "production"]

  function ConfigFile(envName: string): string {
    if envName == "dev" then "dev.yaml" else "production.yaml"
  }

  // ---------------------------------------------------------------------
  // Substitution
  // ---------------------------------------------------------------------

  /** Length of the longest prefix of `s` free of the characters in `stop`. */
  function Span(s: string, stop: set<char>): (n: nat)
    ensures n <= |s|
    ensures forall i :: 0 <= i < n ==> s[i] !in stop
    ensures n < |s| ==> s[n] in stop
  {
    if s == [] || s[0] in stop then 0 else 1 + Span(s[1..], stop)
  }

  /** A match of one of the two placeholder patterns at the start of the
      text: the captured name, the captured default, and the length matched. */
  datatype Placeholder = Placeholder(name: string, default: Option<string>, length: nat)

  /** The optional group `(-[^}]*)` and the closing brace, matched at the
      start of the text after the ':'. */
  function DefaultGroup(u: string): (g: Option<string>)
    ensures g.Some? ==> 0 < |g.value| < |u|
  {
    if u == [] || u[0] != '-' then None
    else
      var m := Span(u, {'}'});
      if m == |u| then None else Some(u[..m])
  }

  /** The pattern `\$\{([^}:]+)(?::(-[^}]*))?\}` matched at the start of `s`.
      The name runs up to the first '}' or ':'; after a ':' the group must
      start with '-' and run up to the next '}'. The captured default keeps
      its leading '-'. */
  function MatchDefaulted(s: string): (m: Option<Placeholder>)
    ensures m.Some? ==> 4 <= m.value.length <= |s|
  {
    if |s| < 2 || s[0] != '$' || s[1] != '{' then None
    else
      var t := s[2..];
      var n := Span(t, {'}', ':'});
      if n == 0 || n == |t| then None
      else if t[n] == '}' then Some(Placeholder(t[..n], None, n + 3))
      else
        match DefaultGroup(t[n + 1..])
        case None => None
        case Some(g) => Some(Placeholder(t[..n], Some(g), n + |g| + 4))
  }

  /** The pattern `\$\{([^}]+)\}` matched at the start of `s`. */
  function MatchPlain(s: string): (m: Option<Placeholder>)
    ensures m.Some? ==> 4 <= m.value.length <= |s| && m.value.default == None
  {
    if |s| < 2 || s[0] != '$' || s[1] != '{' then None
    else
      var t := s[2..];
      var n := Span(t, {'}'});
      if n == 0 || n == |t| then None
      else Some(Placeholder(t[..n], None, n + 3))
  }

  /** os.getenv(name, default). */
  function GetEnv(env: map<string, string>, name: string, default: string): string {
    if name in env then env[name] else default
  }

  /** The replacement callbacks: the variable's value, else the captured
      default, else the empty string. */
  function Replacement(p: Placeholder, env: map<string, string>): string {
    GetEnv(env, p.name, p.default.GetOr(""))
  }

  /** re.sub with the first pattern: matches are taken left to right and the
      text after a match is scanned from its end. */
  function SubstituteDefaulted(s: string, env: map<string, string>): string
    decreases |s|
  {
    if s == [] then []
    else
      match MatchDefaulted(s)
      case Some(p) => Replacement(p, env) + SubstituteDefaulted(s[p.length..], env)
      case None => [s[0]] + SubstituteDefaulted(s[1..], env)
  }

  /** re.sub with the second pattern. */
  function SubstitutePlain(s: string, env: map<string, string>): string
    decreases |s|
  {
    if s == [] then []
    else
      match MatchPlain(s)
      case Some(p) => Replacement(p, env) + SubstitutePlain(s[p.length..], env)
      case None => [s[0]] + SubstitutePlain(s[1..], env)
  }

  /** Both passes, in the order the loader applies them. */
  function ExpandText(text: string, env: map<string, string>): string {
    SubstitutePlain(SubstituteDefaulted(text, env), env)
  }

  /** A name the first pattern captures whole: non-empty, free of '}' and ':'. */
  predicate PlainName(name: string) {
    name != [] && '}' !in name && ':' !in name
  }

  lemma SpanOfPrefix(name: string, rest: string, stop: set<char>)
    requires forall i :: 0 <= i < |name| ==> name[i] !in stop
    requires rest != [] && rest[0] in stop
    ensures Span(name + rest, stop) == |name|
  {
    var s := name + rest;
    assert forall i :: 0 <= i < |name| ==> s[i] == name[i];
    assert s[|name|] == rest[0];
  }

  lemma NameSpan(name: string, rest: string)
    requires PlainName(name) && rest != [] && rest[0] in {'}', ':'}
    ensures Span(name + rest, {'}', ':'}) == |name|
  {
    forall i | 0 <= i < |name| ensures name[i] !in {'}', ':'} {
      assert name[i] in name;
    }
    SpanOfPrefix(name, rest, {'}', ':'});
  }

  /** `${NAME}` becomes the value of NAME, or "" when NAME is unset. */
  lemma {:induction false} PlainPlaceholderReplaced(name: string, rest: string, env: map<string, string>)
    requires PlainName(name)
    ensures SubstituteDefaulted("${" + name + "}" + rest, env)
      == (if name in env then env[name] else "") + SubstituteDefaulted(rest, env)
  {
    var s := "${" + name + "}" + rest;
    assert s[2..] == name + ("}" + rest);
    NameSpan(name, "}" + rest);
    assert s[2..][|name|] == '}';
    assert s[2..][..|name|] == name;
    assert s[|name| + 3..] == rest;
  }

  /** The group after the ':' of `${NAME:-d}` is "-d". */
  lemma DefaultGroupOf(d: string, rest: string)
    requires '}' !in d
    ensures DefaultGroup("-" + d + "}" + rest) == Some("-" + d)
  {
    var u := "-" + d + "}" + rest;
    assert u == ("-" + d) + ("}" + rest);
    forall i | 0 <= i < |"-" + d| ensures ("-" + d)[i] !in {'}'} {
      if i > 0 { assert ("-" + d)[i] == d[i - 1]; assert d[i - 1] in d; }
    }
    SpanOfPrefix("-" + d, "}" + rest, {'}'});
    assert u[..|d| + 1] == "-" + d;
  }

  /** The first pattern matches `${NAME:-d}` whole, capturing NAME and "-d". */
  lemma DefaultedMatch(name: string, d: string, rest: string)
    requires PlainName(name) && '}' !in d
    ensures MatchDefaulted("${" + name + ":-" + d + "}" + rest) == Some(Placeholder(name, Some("-" + d), |name| + |d| + 5))
  {
    var s := "${" + name + ":-" + d + "}" + rest;
    var t := s[2..];
    assert t == name + (":-" + d + "}" + rest);
    NameSpan(name, ":-" + d + "}" + rest);
    assert t[|name|] == ':';
    assert t[..|name|] == name;
    assert t[|name| + 1..] == "-" + d + "}" + rest;
    DefaultGroupOf(d, rest);
  }

  /** `${NAME:-d}` becomes the value of NAME when it is set, and the captured
      group "-d", leading '-' included, when it is not. */
  lemma DefaultedPlaceholderReplaced(name: string, d: string, rest: string, env: map<string, string>)
    requires PlainName(name) && '}' !in d
    ensures SubstituteDefaulted("${" + name + ":-" + d + "}" + rest, env)
      == (if name in env then env[name] else "-" + d) + SubstituteDefaulted(rest, env)
  {
    var s := "${" + name + ":-" + d + "}" + rest;
    DefaultedMatch(name, d, rest);
    assert s[|name| + |d| + 5..] == rest;
  }

  /** Text in which no `${` occurs is left unchanged by the first pass. */
  lemma {:induction false} DefaultedPassIdentity(s: string, env: map<string, string>)
    requires !Contains(s, "${")
    ensures SubstituteDefaulted(s, env) == s
    decreases |s|
  {
    if s != [] {
      assert !StartsWith(s, "${");
      if |s| >= 2 { assert s[..2] == [s[0], s[1]]; }
      assert MatchDefaulted(s) == None;
      DefaultedPassIdentity(s[1..], env);
    }
  }

  /** Text in which no `${` occurs is left unchanged by the second pass. */
  lemma {:induction false} PlainPassIdentity(s: string, env: map<string, string>)
    requires !Contains(s, "${")
    ensures SubstitutePlain(s, env) == s
    decreases |s|
  {
    if s != [] {
      assert !StartsWith(s, "${");
      if |s| >= 2 { assert s[..2] == [s[0], s[1]]; }
      assert MatchPlain(s) == None;
      PlainPassIdentity(s[1..], env);
    }
  }

  /** A configuration text without `${` is loaded as written. */
  lemma ExpandWithoutPlaceholders(s: string, env: map<string, string>)
    requires !Contains(s, "${")
    ensures ExpandText(s, env) == s
  {
    DefaultedPassIdentity(s, env);
    PlainPassIdentity(s, env);
  }

  /** The second pass looks up the whole text between the braces, so a
      placeholder the first pass leaves alone is still replaced, by the
      variable named with all of its text, or by "" when there is none. */
  lemma {:induction false} SecondPassWholeInner(inner: string, rest: string, env: map<string, string>)
    requires inner != [] && '}' !in inner
    ensures SubstitutePlain("${" + inner + "}" + rest, env)
      == (if inner in env then env[inner] else "") + SubstitutePlain(rest, env)
  {
    var s := "${" + inner + "}" + rest;
    assert s[2..] == inner + ("}" + rest);
    forall i | 0 <= i < |inner| ensures inner[i] !in {'}'} {
      assert inner[i] in inner;
    }
    SpanOfPrefix(inner, "}" + rest, {'}'});
    assert s[2..][..|inner|] == inner;
    assert s[|inner| + 3..] == rest;
  }

  /** A whole file `${NAME:-d}` with NAME unset and a default free of '$'
      loads as "-d". */
  lemma UnsetDefaultKeepsDash(name: string, d: string, env: map<string, string>)
    requires PlainName(name) && '}' !in d && '$' !in d && name !in env
    ensures ExpandText("${" + name + ":-" + d + "}", env) == "-" + d
  {
    DefaultedPlaceholderReplaced(name, d, "", env);
    assert "${" + name + ":-" + d + "}" + "" == "${" + name + ":-" + d + "}";
    assert "-" + d + "" == "-" + d;
    assert '$' !in "-" + d;
    NotContainsWithoutFirstChar("-" + d, "${");
    PlainPassIdentity("-" + d, env);
  }

  /** load_environment_config: unknown environments are refused before any
      file is consulted; otherwise the file's text is expanded and parsed. */
  function LoadEnvironmentConfig(envName: string, files: string -> Option<string>,
                                 env: map<string, string>, parse: string -> Option<Value>): (r: Option<Value>)
    ensures envName !in Environments ==> r == None
    ensures envName in Environments && files(ConfigFile(envName)) == None ==> r == None
  {
    if envName !in Environments then None
    else
      match files(ConfigFile(envName))
      case None => None
      case Some(text) => parse(ExpandText(text, env))
  }

  // ---------------------------------------------------------------------
  // Validation
  // ---------------------------------------------------------------------

  const RequiredSections: seq<string> := ["environment", "web", "database", "authentication", "test_data"]

  function MissingSection(section: string): string {
    "Missing section: " + section
  }

  const PlaceholderWarning: string := "Configuration contains placeholder values"

  /** The error and the present-section lists produced by the section loop. */
  datatype SectionReport = SectionReport(missing: seq<string>, present: seq<string>)

  /** The outcome of validate_environment_config: either the configuration
      could not be loaded, or the validation dictionary. */
  datatype Validation =
    | NotLoaded
    | Checked(valid: bool, errors: seq<string>, warnings: seq<string>, present: seq<string>)

  /** The section loop over `sections`, one `in` test per section. */
  function SectionCheck(config: Value, sections: seq<string>): Result<SectionReport> {
    if sections == [] then Ok(SectionReport([], []))
    else
      var prev :- SectionCheck(config, sections[..|sections| - 1]);
      var section := sections[|sections| - 1];
      var has :- In(section, config);
      Ok(if has then prev.(present := prev.present + [section])
         else prev.(missing := prev.missing + [MissingSection(section)]))
  }

  /** `section in config` holds. */
  predicate Member(config: Value, section: string) {
    In(section, config) == Ok(true)
  }

  /** Every section is recorded once, as missing or as present. */
  lemma {:induction false} SectionCheckCounts(config: Value, sections: seq<string>)
    requires SectionCheck(config, sections).Ok?
    ensures |SectionCheck(config, sections).value.missing| + |SectionCheck(config, sections).value.present| == |sections|
    decreases |sections|
  {
    if sections != [] {
      SectionCheckCounts(config, sections[..|sections| - 1]);
    }
  }

  /** A configuration `in` does not work on raises TypeError at the first section. */
  lemma {:induction false} SectionCheckOfScalar(config: Value, sections: seq<string>)
    requires config.Null? || config.Bool? || config.Int?
    requires sections != []
    ensures SectionCheck(config, sections) == Err(TypeError)
    decreases |sections|
  {
    if |sections| > 1 {
      SectionCheckOfScalar(config, sections[..|sections| - 1]);
    }
  }

  /** What the URL checks find under one key of the environment section. */
  datatype UrlStatus = MissingUrl | InsecureUrl | SecureUrl

  /** `.get(key)`, the truthiness test and `.startswith("https://")`. */
  function CheckUrl(section: Value, key: string): (r: Result<UrlStatus>)
    ensures r == Ok(MissingUrl) <==> section.Dict? && !Truthy(Lookup(section.entries, key).GetOr(Null))
    ensures r == Ok(InsecureUrl) <==>
      (section.Dict? && Lookup(section.entries, key).Some?
       && Lookup(section.entries, key).value.Str?
       && Lookup(section.entries, key).value.s != ""
       && !StartsWith(Lookup(section.entries, key).value.s, "https://"))
  {
    var v :- GetOrDefault(section, key, Null);
    if !Truthy(v) then Ok(MissingUrl)
    else if v.Str? then Ok(if StartsWith(v.s, "https://") then SecureUrl else InsecureUrl)
    else Err(AttributeError)
  }

  /** The URL checks, run only when the configuration has an environment
      section; without one nothing is reported, as for two https URLs. */
  function UrlFindings(config: Value): Result<(UrlStatus, UrlStatus)> {
    var hasEnvironment :- In("environment", config);
    if !hasEnvironment then Ok((SecureUrl, SecureUrl))
    else
      var section :- GetItem(config, "environment");
      var base :- CheckUrl(section, "base_url");
      var api :- CheckUrl(section, "api_base_url");
      Ok((base, api))
  }

  function MissingUrlError(key: string): string {
    "Missing " + key
  }

  function InsecureUrlWarning(key: string): string {
    key + " should use HTTPS"
  }

  function UrlErrors(key: string, status: UrlStatus): seq<string> {
    if status == MissingUrl then [MissingUrlError(key)] else []
  }

  function UrlWarnings(key: string, status: UrlStatus): seq<string> {
    if status == InsecureUrl then [InsecureUrlWarning(key)] else []
  }

  /** "your_" or "example" occurs in the lower-cased str() of the configuration. */
  predicate HasPlaceholders(config: Value) {
    Contains(Lower(StrOf(config)), "your_") || Contains(Lower(StrOf(config)), "example")
  }

  /** The validation dictionary assembled from the section and URL findings. */
  function Report(config: Value, sections: SectionReport, urls: (UrlStatus, UrlStatus)): Validation {
    var errors := sections.missing + UrlErrors("base_url", urls.0) + UrlErrors("api_base_url", urls.1);
    var warnings := UrlWarnings("base_url", urls.0) + UrlWarnings("api_base_url", urls.1)
      + (if HasPlaceholders(config) then [PlaceholderWarning] else []);
    Checked(errors == [], errors, warnings, sections.present)
  }

  /** validate_environment_config on the loaded configuration. */
  function Validate(config: Option<Value>): (r: Result<Validation>)
    ensures config.None? || !Truthy(config.value) ==> r == Ok(NotLoaded)
    ensures config.Some? && Truthy(config.value) ==> r.Err? || r.value.Checked?
  {
    if config.None? || !Truthy(config.value) then Ok(NotLoaded)
    else
      var sections :- SectionCheck(config.value, RequiredSections);
      var urls :- UrlFindings(config.value);
      Ok(Report(config.value, sections, urls))
  }

  /** Every entry of the section error list names a section. */
  lemma {:induction false} SectionErrorsNameSections(config: Value, sections: seq<string>)
    requires SectionCheck(config, sections).Ok?
    ensures forall e :: e in SectionCheck(config, sections).value.missing ==> StartsWith(e, "Missing section: ")
    decreases |sections|
  {
    if sections != [] {
      SectionErrorsNameSections(config, sections[..|sections| - 1]);
      assert StartsWith(MissingSection(sections[|sections| - 1]), "Missing section: ");
    }
  }

  /** The URL errors: a missing or empty URL is an error, and the validation
      is valid exactly when no section is missing and both URLs are present. */
  lemma ReportErrors(config: Value, sections: SectionReport, urls: (UrlStatus, UrlStatus))
    requires forall e :: e in sections.missing ==> StartsWith(e, "Missing section: ")
    ensures MissingUrlError("base_url") in Report(config, sections, urls).errors <==> urls.0 == MissingUrl
    ensures MissingUrlError("api_base_url") in Report(config, sections, urls).errors <==> urls.1 == MissingUrl
    ensures Report(config, sections, urls).valid <==>
      (sections.missing == [] && urls.0 != MissingUrl && urls.1 != MissingUrl)
  {
    assert !StartsWith(MissingUrlError("base_url"), "Missing section: ");
    assert MissingUrlError("api_base_url")[8] != "Missing section: "[8];
  }

  /** A URL without https only warns. */
  lemma ReportUrlWarnings(config: Value, sections: SectionReport, urls: (UrlStatus, UrlStatus))
    ensures InsecureUrlWarning("base_url") in Report(config, sections, urls).warnings <==> urls.0 == InsecureUrl
    ensures InsecureUrlWarning("api_base_url") in Report(config, sections, urls).warnings <==> urls.1 == InsecureUrl
  {
    var a := UrlWarnings("base_url", urls.0);
    var b := UrlWarnings("api_base_url", urls.1);
    var c := if HasPlaceholders(config) then [PlaceholderWarning] else [];
    assert Report(config, sections, urls).warnings == a + b + c;
    assert InsecureUrlWarning("base_url")[0] == 'b';
    assert InsecureUrlWarning("api_base_url")[0] == 'a';
    assert PlaceholderWarning[0] == 'C';
  }

  /** The placeholder warning is given exactly when the rendering contains a marker. */
  lemma ReportPlaceholderWarning(config: Value, sections: SectionReport, urls: (UrlStatus, UrlStatus))
    ensures PlaceholderWarning in Report(config, sections, urls).warnings <==> HasPlaceholders(config)
  {
    var a := UrlWarnings("base_url", urls.0);
    var b := UrlWarnings("api_base_url", urls.1);
    var c := if HasPlaceholders(config) then [PlaceholderWarning] else [];
    assert Report(config, sections, urls).warnings == a + b + c;
    assert |PlaceholderWarning| != |InsecureUrlWarning("base_url")|;
    assert |PlaceholderWarning| != |InsecureUrlWarning("api_base_url")|;
  }

  /** The section errors are names of distinct sections. */
  lemma MissingSectionInjective(a: string, b: string)
    requires MissingSection(a) == MissingSection(b)
    ensures a == b
  {
    assert a == MissingSection(a)[17..];
    assert b == MissingSection(b)[17..];
  }

  /** One step of the section loop. */
  lemma SectionCheckStep(config: Value, sections: seq<string>)
    requires sections != [] && SectionCheck(config, sections).Ok?
    ensures SectionCheck(config, sections[..|sections| - 1]).Ok?
    ensures In(sections[|sections| - 1], config).Ok?
    ensures SectionCheck(config, sections).value.missing
      == SectionCheck(config, sections[..|sections| - 1]).value.missing
         + (if Member(config, sections[|sections| - 1]) then [] else [MissingSection(sections[|sections| - 1])])
  {
  }

  /** A section is reported missing exactly when it is required and absent. */
  lemma {:induction false} SectionErrorIff(config: Value, sections: seq<string>, s: string)
    requires SectionCheck(config, sections).Ok?
    ensures MissingSection(s) in SectionCheck(config, sections).value.missing <==> s in sections && !Member(config, s)
    decreases |sections|
  {
    if sections != [] {
      var init := sections[..|sections| - 1];
      var last := sections[|sections| - 1];
      SectionCheckStep(config, sections);
      SectionErrorIff(config, init, s);
      assert sections == init + [last];
      if MissingSection(s) == MissingSection(last) {
        MissingSectionInjective(s, last);
      }
    }
  }

  /** A missing section is reported as often as it is listed: exactly once
      for the distinct required sections. */
  lemma {:induction false} SectionErrorCount(config: Value, sections: seq<string>, s: string)
    requires SectionCheck(config, sections).Ok? && !Member(config, s)
    ensures multiset(SectionCheck(config, sections).value.missing)[MissingSection(s)] == multiset(sections)[s]
    decreases |sections|
  {
    if sections != [] {
      var init := sections[..|sections| - 1];
      var last := sections[|sections| - 1];
      SectionCheckStep(config, sections);
      SectionErrorCount(config, init, s);
      var before := SectionCheck(config, init).value.missing;
      var added := if Member(config, last) then [] else [MissingSection(last)];
      assert multiset(SectionCheck(config, sections).value.missing) == multiset(before) + multiset(added);
      assert sections == init + [last];
      assert multiset(sections) == multiset(init) + multiset{last};
      if last == s {
        assert added == [MissingSection(s)];
      } else {
        if MissingSection(s) == MissingSection(last) {
          MissingSectionInjective(s, last);
        }
        assert multiset(added)[MissingSection(s)] == 0;
      }
    }
  }

  /** Each missing required section gives exactly one error. */
  lemma OneErrorPerMissingSection(config: Value, s: string)
    requires SectionCheck(config, RequiredSections).Ok? && s in RequiredSections && !Member(config, s)
    ensures multiset(SectionCheck(config, RequiredSections).value.missing)[MissingSection(s)] == 1
  {
    SectionErrorCount(config, RequiredSections, s);
    assert multiset(RequiredSections)[s] == 1;
  }

  /** The URL messages are not section errors. */
  lemma UrlErrorsAreNotSectionErrors(s: string)
    ensures MissingUrlError("base_url") != MissingSection(s)
    ensures MissingUrlError("api_base_url") != MissingSection(s)
  {
    assert |MissingUrlError("base_url")| < |"Missing section: "|;
    assert MissingUrlError("api_base_url")[8] != MissingSection(s)[8];
  }

  /** The rules of validate_environment_config on a loaded configuration:
      `valid` exactly when no error was recorded, one error naming each
      missing required section, an error for each missing URL, and the
      placeholder warning exactly when the rendering contains a marker. */
  lemma ValidationRules(config: Option<Value>)
    requires Validate(config).Ok? && Validate(config).value.Checked?
    ensures Validate(config).value.valid <==> Validate(config).value.errors == []
    ensures forall s :: MissingSection(s) in Validate(config).value.errors <==>
      s in RequiredSections && !Member(config.value, s)
    ensures MissingUrlError("base_url") in Validate(config).value.errors <==> UrlFindings(config.value).value.0 == MissingUrl
    ensures MissingUrlError("api_base_url") in Validate(config).value.errors <==> UrlFindings(config.value).value.1 == MissingUrl
    ensures PlaceholderWarning in Validate(config).value.warnings <==> HasPlaceholders(config.value)
  {
    var c := config.value;
    var sections := SectionCheck(c, RequiredSections).value;
    var urls := UrlFindings(c).value;
    assert Validate(config).value == Report(c, sections, urls);
    SectionErrorsNameSections(c, RequiredSections);
    ReportErrors(c, sections, urls);
    ReportPlaceholderWarning(c, sections, urls);
    forall s ensures MissingSection(s) in Report(c, sections, urls).errors <==> s in RequiredSections && !Member(c, s) {
      SectionErrorIff(c, RequiredSections, s);
      UrlErrorsAreNotSectionErrors(s);
    }
  }

  /** The section loop of validate_environment_config, with its `valid` flag. */
  method CheckSections(config: Value) returns (r: Result<SectionReport>, valid: bool)
    ensures r == SectionCheck(config, RequiredSections)
    ensures r.Ok? ==> (valid <==> r.value.missing == [])
  {
    var missing: seq<string> := [];
    var present: seq<string> := [];
    valid := true;
    var i := 0;
    while i < |RequiredSections|
      invariant 0 <= i <= |RequiredSections|
      invariant SectionCheck(config, RequiredSections[..i]) == Ok(SectionReport(missing, present))
      invariant valid <==> missing == []
    {
      assert RequiredSections[..i + 1][..i] == RequiredSections[..i];
      var section := RequiredSections[i];
      var has := In(section, config);
      if has.Err? {
        SectionCheckOfScalar(config, RequiredSections);
        return Err(has.error), valid;
      }
      if !has.value {
        missing := missing + [MissingSection(section)];
        valid := false;
      } else {
        present := present + [section];
      }
      i := i + 1;
    }
    assert RequiredSections[..i] == RequiredSections;
    r := Ok(SectionReport(missing, present));
  }

  /** The URL part of validate_environment_config: errors and warnings
      appended for the two URLs, and the flag cleared on an error. */
  method CheckUrls(config: Value, errors: seq<string>, valid: bool)
    returns (r: Result<(seq<string>, seq<string>)>, stillValid: bool)
    ensures UrlFindings(config).Err? ==> r == Err(UrlFindings(config).error)
    ensures UrlFindings(config).Ok? ==> r.Ok?
    ensures r.Ok? ==>
      (r.value.0 == errors + UrlErrors("base_url", UrlFindings(config).value.0)
                           + UrlErrors("api_base_url", UrlFindings(config).value.1))
    ensures r.Ok? ==>
      (r.value.1 == UrlWarnings("base_url", UrlFindings(config).value.0)
                    + UrlWarnings("api_base_url", UrlFindings(config).value.1))
    ensures r.Ok? ==> (stillValid <==> valid && r.value.0 == errors)
  {
    var urls := UrlFindings(config);
    if urls.Err? {
      return Err(urls.error), valid;
    }
    var errs := errors;
    var warnings: seq<string> := [];
    stillValid := valid;
    if urls.value.0 == MissingUrl {
      errs := errs + [MissingUrlError("base_url")];
      stillValid := false;
    } else if urls.value.0 == InsecureUrl {
      warnings := warnings + [InsecureUrlWarning("base_url")];
    }
    if urls.value.1 == MissingUrl {
      errs := errs + [MissingUrlError("api_base_url")];
      stillValid := false;
    } else if urls.value.1 == InsecureUrl {
      warnings := warnings + [InsecureUrlWarning("api_base_url")];
    }
    r := Ok((errs, warnings));
  }

  /** Validate on a loaded configuration, step by step. */
  lemma ValidateSteps(config: Option<Value>)
    requires config.Some? && Truthy(config.value)
    ensures SectionCheck(config.value, RequiredSections).Err? ==>
      Validate(config) == Err(SectionCheck(config.value, RequiredSections).error)
    ensures SectionCheck(config.value, RequiredSections).Ok? && UrlFindings(config.value).Err? ==>
      Validate(config) == Err(UrlFindings(config.value).error)
    ensures SectionCheck(config.value, RequiredSections).Ok? && UrlFindings(config.value).Ok? ==>
      Validate(config) == Ok(Report(config.value, SectionCheck(config.value, RequiredSections).value,
                                    UrlFindings(config.value).value))
  {
  }

  /** validate_environment_config, with the configuration already loaded. */
  method ValidateEnvironmentConfig(config: Option<Value>) returns (r: Result<Validation>)
    ensures r == Validate(config)
  {
    if config.None? || !Truthy(config.value) {
      return Ok(NotLoaded);
    }
    var c := config.value;
    var sections, valid := CheckSections(c);
    ValidateSteps(config);
    if sections.Err? {
      return Err(sections.error);
    }
    var urls, stillValid := CheckUrls(c, sections.value.missing, valid);
    if urls.Err? {
      return Err(urls.error);
    }
    var warnings := urls.value.1;
    if HasPlaceholders(c) {
      warnings := warnings + [PlaceholderWarning];
    }
    var findings := UrlFindings(c).value;
    var added := UrlErrors("base_url", findings.0) + UrlErrors("api_base_url", findings.1);
    assert urls.value.0 == sections.value.missing + added;
    assert stillValid <==> urls.value.0 == [];
    assert warnings == urls.value.1 + (if HasPlaceholders(c) then [PlaceholderWarning] else []);
    r := Ok(Checked(stillValid, urls.value.0, warnings, sections.value.present));
    assert r == Ok(Report(c, sections.value, findings));
  }

  // ---------------------------------------------------------------------
  // Connectivity and the overall health decision
  // ---------------------------------------------------------------------

  /** What the configurator cannot see for itself: the configuration files,
      os.environ, the YAML loader and the outcomes of the two probes. */
  datatype World = World(files: string -> Option<string>, env: map<string, string>,
                         parse: string -> Option<Value>, accessible: string -> bool,
                         healthy: string -> bool)

  function Config(envName: string, w: World): Option<Value> {
    LoadEnvironmentConfig(envName, w.files, w.env, w.parse)
  }

  /** The outcome of test_environment_connectivity. */
  datatype Connectivity = ConnectivityError | Probed(baseAccessible: bool, apiHealthy: bool)

  /** test_environment_connectivity: an error entry for an unknown or
      unloadable environment, otherwise the two probe outcomes. */
  function TestConnectivity(envName: string, w: World): (r: Result<Connectivity>)
    ensures envName !in Environments || Config(envName, w).None? || !Truthy(Config(envName, w).value)
      ==> r == Ok(ConnectivityError)
  {
    var config := Config(envName, w);
    if envName !in Environments || config.None? || !Truthy(config.value) then Ok(ConnectivityError)
    else
      var section :- GetItem(config.value, "environment");
      var base :- GetItem(section, "base_url");
      var api :- GetItem(section, "api_base_url");
      Ok(Probed(w.accessible(StrOf(base)), w.healthy(StrOf(api))))
  }

  /** The environments run_full_validation checks: the one named, or every
      configured one when no (or an empty) name is given. */
  function EnvironmentsToCheck(envName: Option<string>): (r: seq<string>)
    ensures envName.Some? && envName.value != "" ==> r == [envName.value]
    ensures envName.None? || envName.value == "" ==> r == Environments
  {
    if envName.Some? && envName.value != "" then [envName.value] else Environments
  }

  /** The loop body of run_full_validation for one environment AS WRITTEN:
      a failed validation prints the entries under "errors", and the result
      of an unloadable configuration has no such entry, so the lookup raises
      KeyError. */
  function EnvironmentHealthyAsWritten(envName: string, w: World): (r: Result<bool>)
    ensures Validate(Config(envName, w)) == Ok(NotLoaded) ==> r == Err(KeyError)
  {
    var v :- Validate(Config(envName, w));
    if v.NotLoaded? then Err(KeyError)
    else if !v.valid then Ok(false)
    else
      var c :- TestConnectivity(envName, w);
      Ok(c == Probed(true, true))
  }

  /** The loop body as evidently intended: an environment whose
      configuration does not load is unhealthy and the loop goes on. */
  function EnvironmentHealthy(envName: string, w: World): Result<bool> {
    var v :- Validate(Config(envName, w));
    if v.NotLoaded? || !v.valid then Ok(false)
    else
      var c :- TestConnectivity(envName, w);
      Ok(c == Probed(true, true))
  }

  /** An environment is healthy exactly when its configuration loads and
      validates and both probes succeed. */
  lemma EnvironmentHealthyIff(envName: string, w: World)
    ensures EnvironmentHealthy(envName, w) == Ok(true) <==>
      (exists errors, warnings, present :: Validate(Config(envName, w)) == Ok(Checked(true, errors, warnings, present)))
      && TestConnectivity(envName, w) == Ok(Probed(true, true))
  {
    var v := Validate(Config(envName, w));
    if v.Ok? && v.value.Checked? && v.value.valid {
      assert v == Ok(Checked(true, v.value.errors, v.value.warnings, v.value.present));
    }
  }

  /** The two bodies agree on every environment whose configuration loads. */
  lemma AsWrittenAgreesWhenLoaded(envName: string, w: World)
    requires Validate(Config(envName, w)) != Ok(NotLoaded)
    ensures EnvironmentHealthyAsWritten(envName, w) == EnvironmentHealthy(envName, w)
  {
  }

  /** The input that shows the difference: checking an environment whose
      configuration file is missing raises KeyError as written, while the
      intended loop reports it as unhealthy. */
  lemma MissingFileRaisesKeyError(w: World)
    requires w.files("dev.yaml") == None
    ensures EnvironmentHealthyAsWritten("dev", w) == Err(KeyError)
    ensures EnvironmentHealthy("dev", w) == Ok(false)
  {
    assert Config("dev", w) == None;
  }

  /** The accumulated all_healthy flag over per-environment outcomes taken in
      order; the first exception ends the run. */
  function Combine(outcomes: seq<Result<bool>>): Result<bool> {
    if outcomes == [] then Ok(true)
    else
      var prev :- Combine(outcomes[..|outcomes| - 1]);
      var h :- outcomes[|outcomes| - 1];
      Ok(prev && h)
  }

  /** The flag stays set exactly when every outcome is healthy. */
  lemma {:induction false} CombineIff(outcomes: seq<Result<bool>>)
    ensures Combine(outcomes) == Ok(true) <==> forall k :: 0 <= k < |outcomes| ==> outcomes[k] == Ok(true)
    decreases |outcomes|
  {
    if outcomes != [] {
      var init := outcomes[..|outcomes| - 1];
      CombineIff(init);
      assert forall k :: 0 <= k < |init| ==> init[k] == outcomes[k];
    }
  }

  /** An exception among the first n outcomes is the outcome of the run. */
  lemma {:induction false} CombineErrorStops(outcomes: seq<Result<bool>>, n: nat)
    requires n <= |outcomes| && Combine(outcomes[..n]).Err?
    ensures Combine(outcomes) == Combine(outcomes[..n])
    decreases |outcomes|
  {
    if n < |outcomes| {
      var init := outcomes[..|outcomes| - 1];
      assert init[..n] == outcomes[..n];
      CombineErrorStops(init, n);
    } else {
      assert outcomes[..n] == outcomes;
    }
  }

  lemma CombineExtend(outcomes: seq<Result<bool>>, h: Result<bool>)
    requires Combine(outcomes).Ok? && h.Ok?
    ensures Combine(outcomes + [h]) == Ok(Combine(outcomes).value && h.value)
  {
    assert (outcomes + [h])[..|outcomes|] == outcomes;
  }

  /** One more outcome: an error ends the run, a result is and-ed into the flag. */
  lemma CombineStep(outcomes: seq<Result<bool>>, i: nat)
    requires i < |outcomes| && Combine(outcomes[..i]).Ok?
    ensures Combine(outcomes[..i + 1]) == (if outcomes[i].Err? then Err(outcomes[i].error)
                                           else Ok(Combine(outcomes[..i]).value && outcomes[i].value))
  {
    assert outcomes[..i + 1][..i] == outcomes[..i];
  }

  /** all_healthy after the environments `envs`. */
  function AllHealthy(envs: seq<string>, w: World): Result<bool> {
    Combine(MapSeq(e => EnvironmentHealthy(e, w), envs))
  }

  /** The run reports healthy exactly when every checked environment is healthy. */
  lemma AllHealthyIff(envs: seq<string>, w: World)
    ensures AllHealthy(envs, w) == Ok(true) <==>
      forall k :: 0 <= k < |envs| ==> EnvironmentHealthy(envs[k], w) == Ok(true)
  {
    CombineIff(MapSeq(e => EnvironmentHealthy(e, w), envs));
  }

  /** The loop of run_full_validation: `check` is the loop body for one
      environment, and the flag is cleared by every unhealthy one. */
  method AccumulateHealth(envs: seq<string>, check: string -> Result<bool>) returns (r: Result<bool>)
    ensures r == Combine(MapSeq(check, envs))
  {
    ghost var outcomes := MapSeq(check, envs);
    var allHealthy := true;
    var i := 0;
    while i < |envs|
      invariant 0 <= i <= |envs|
      invariant Combine(outcomes[..i]) == Ok(allHealthy)
    {
      var h := check(envs[i]);
      CombineStep(outcomes, i);
      if h.Err? {
        CombineErrorStops(outcomes, i + 1);
        return Err(h.error);
      }
      if !h.value {
        allHealthy := false;
      }
      i := i + 1;
    }
    assert outcomes[..i] == outcomes;
    r := Ok(allHealthy);
  }

  /** run_full_validation with the intended loop body. */
  method RunFullValidation(envName: Option<string>, w: World) returns (r: Result<bool>)
    ensures r == AllHealthy(EnvironmentsToCheck(envName), w)
  {
    r := AccumulateHealth(EnvironmentsToCheck(envName), e => EnvironmentHealthy(e, w));
  }
}
