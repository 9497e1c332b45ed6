/** The interactive setup: the answers to its prompts are collected into an
    insertion-ordered dictionary of environment variables, which is then
    written out as a .env text grouped by category. The prompts, the clock
    and the file system are inputs: `Answers` holds what the user types,
    `date` is the output of the `date` command, and `writeOk` says whether
    writing the file succeeded. */
module QuickSetup {
  import opened Base
  import opened OrderedDict

  // ---------------------------------------------------------------------
  // Prompt rules
  // ---------------------------------------------------------------------

  /** What the user types: `visible` at an input() prompt and `hidden` at a
      getpass() prompt, both keyed by the variable asked for, and the
      answers to the yes/no questions. */
  datatype Answers = Answers(visible: string -> string, hidden: string -> string,
                             useProd: string, customJwt: string, setupOauth: string,
                             configureService: string -> string)

  /** A yes/no answer accepts exactly "y" in either case. */
  predicate Yes(answer: string) {
    Lower(answer) == "y"
  }

  /** check_existing_env: with no .env file setup goes on; with one, only on "y". */
  predicate ProceedWithSetup(envFileExists: bool, overwriteAnswer: string) {
    !envFileExists || Yes(overwriteAnswer)
  }

  /** Only "y" and "Y" confirm the overwrite. */
  lemma OverwriteAnswers()
    ensures ProceedWithSetup(true, "y") && ProceedWithSetup(true, "Y")
    ensures !ProceedWithSetup(true, "") && !ProceedWithSetup(true, "yes") && !ProceedWithSetup(true, "n")
  {
    assert Lower("Y") == "y";
    assert |Lower("yes")| == 3;
  }

  /** `input(...) or default`: an empty answer gives the default. */
  function OrDefault(answer: string, default: string): string {
    if answer == "" then default else answer
  }

  /** The assignments of get_database_credentials. */
  function DatabaseUpdates(a: Answers): seq<(string, string)> {
    [("DB_HOST", OrDefault(a.visible("DB_HOST"), "localhost")),
     ("DB_PORT", OrDefault(a.visible("DB_PORT"), "3306")),
     ("DB_NAME", OrDefault(a.visible("DB_NAME"), "u796724541_englishAppDB")),
     ("DB_USERNAME", OrDefault(a.visible("DB_USERNAME"), "u796724541_adminGMC")),
     ("DB_PASSWORD", a.hidden("DB_PASSWORD"))]
  }

  /** Each database prompt left empty gives its stated default; the password
      has none. */
  lemma DatabaseDefaults(d: Dict, a: Answers)
    ensures Get(SetAll(d, DatabaseUpdates(a)), "DB_HOST") == Some(if a.visible("DB_HOST") == "" then "localhost" else a.visible("DB_HOST"))
    ensures Get(SetAll(d, DatabaseUpdates(a)), "DB_PORT") == Some(if a.visible("DB_PORT") == "" then "3306" else a.visible("DB_PORT"))
    ensures Get(SetAll(d, DatabaseUpdates(a)), "DB_NAME")
      == Some(if a.visible("DB_NAME") == "" then "u796724541_englishAppDB" else a.visible("DB_NAME"))
    ensures Get(SetAll(d, DatabaseUpdates(a)), "DB_USERNAME")
      == Some(if a.visible("DB_USERNAME") == "" then "u796724541_adminGMC" else a.visible("DB_USERNAME"))
    ensures Get(SetAll(d, DatabaseUpdates(a)), "DB_PASSWORD") == Some(a.hidden("DB_PASSWORD"))
  {
    var u := DatabaseUpdates(a);
    forall i | 0 <= i < |u| ensures Get(SetAll(d, u), u[i].0) == Some(u[i].1) {
      LastForDistinct(u, i);
      SetAllGet(d, u, u[i].0);
    }
    assert u[0].0 == "DB_HOST" && u[1].0 == "DB_PORT" && u[2].0 == "DB_NAME";
    assert u[3].0 == "DB_USERNAME" && u[4].0 == "DB_PASSWORD";
  }

  /** The assignments of get_test_credentials: the development users always,
      the production users only on "y". */
  function TestUserUpdates(a: Answers): seq<(string, string)> {
    [("DEV_TEST_USER", a.visible("DEV_TEST_USER")), ("DEV_TEST_PASSWORD", a.hidden("DEV_TEST_PASSWORD")),
     ("DEV_ADMIN_USER", a.visible("DEV_ADMIN_USER")), ("DEV_ADMIN_PASSWORD", a.hidden("DEV_ADMIN_PASSWORD"))]
    + (if Yes(a.useProd) then
         [("PROD_TEST_USER", a.visible("PROD_TEST_USER")), ("PROD_TEST_PASSWORD", a.hidden("PROD_TEST_PASSWORD")),
          ("PROD_ADMIN_USER", a.visible("PROD_ADMIN_USER")), ("PROD_ADMIN_PASSWORD", a.hidden("PROD_ADMIN_PASSWORD"))]
       else [])
  }

  /** The assignments of get_jwt_secrets. */
  function JwtUpdates(a: Answers): seq<(string, string)> {
    if Yes(a.customJwt) then
      [("JWT_SECRET_PROD", a.hidden("JWT_SECRET_PROD")), ("JWT_REFRESH_SECRET_PROD", a.hidden("JWT_REFRESH_SECRET_PROD"))]
    else []
  }

  /** The assignments of get_oauth_credentials. */
  function OauthUpdates(a: Answers): seq<(string, string)> {
    if Yes(a.setupOauth) then
      [("GOOGLE_CLIENT_ID_PROD", a.visible("GOOGLE_CLIENT_ID_PROD")),
       ("GOOGLE_CLIENT_SECRET_PROD", a.hidden("GOOGLE_CLIENT_SECRET_PROD")),
       ("FACEBOOK_APP_ID_PROD", a.visible("FACEBOOK_APP_ID_PROD")),
       ("FACEBOOK_APP_SECRET_PROD", a.hidden("FACEBOOK_APP_SECRET_PROD"))]
    else []
  }

  /** The optional services and their variables, in dictionary order. */
  const Services: seq<(string, seq<string>)> := [
    ("CI/CD", ["GITHUB_TOKEN", "SLACK_WEBHOOK_URL"]),
    ("BrowserStack", ["BROWSERSTACK_USERNAME", "BROWSERSTACK_ACCESS_KEY"]),
    ("Email Reports", ["REPORT_EMAIL_SENDER", "REPORT_EMAIL_PASSWORD"])]

  /** A variable whose lower-cased name mentions a password, secret or token
      is read without echo. */
  predicate IsSecretName(name: string) {
    Contains(Lower(name), "password") || Contains(Lower(name), "secret") || Contains(Lower(name), "token")
  }

  /** The value typed for an optional-service variable, at the prompt its name calls for. */
  function ServiceValue(name: string, a: Answers): string {
    if IsSecretName(name) then a.hidden(name) else a.visible(name)
  }

  /** The assignments for one configured service: a value is kept only when
      it is not blank, and it is kept as typed. */
  function VarUpdates(vars: seq<string>, a: Answers): seq<(string, string)> {
    if vars == [] then []
    else
      var name := vars[|vars| - 1];
      var value := ServiceValue(name, a);
      VarUpdates(vars[..|vars| - 1], a) + (if Strip(value) != "" then [(name, value)] else [])
  }

  /** An optional-service assignment is exactly a listed variable whose typed
      value, unstripped, is not blank. */
  lemma {:induction false} VarUpdatesMeaning(vars: seq<string>, a: Answers, name: string, value: string)
    ensures (name, value) in VarUpdates(vars, a) <==>
      name in vars && value == ServiceValue(name, a) && Strip(value) != ""
    decreases |vars|
  {
    if vars != [] {
      var init := vars[..|vars| - 1];
      VarUpdatesMeaning(init, a, name, value);
      assert vars == init + [vars[|vars| - 1]];
    }
  }

  /** The assignments of get_optional_services over `services`. */
  function ServiceUpdates(services: seq<(string, seq<string>)>, a: Answers): seq<(string, string)> {
    if services == [] then []
    else
      var service := services[|services| - 1];
      ServiceUpdates(services[..|services| - 1], a)
      + (if Yes(a.configureService(service.0)) then VarUpdates(service.1, a) else [])
  }

  lemma VarUpdatesStep(vars: seq<string>, i: nat, a: Answers)
    requires i < |vars|
    ensures VarUpdates(vars[..i + 1], a) == VarUpdates(vars[..i], a)
      + (if Strip(ServiceValue(vars[i], a)) != "" then [(vars[i], ServiceValue(vars[i], a))] else [])
  {
    assert vars[..i + 1][..i] == vars[..i];
  }

  lemma ServiceUpdatesStep(services: seq<(string, seq<string>)>, i: nat, a: Answers)
    requires i < |services|
    ensures ServiceUpdates(services[..i + 1], a) == ServiceUpdates(services[..i], a)
      + (if Yes(a.configureService(services[i].0)) then VarUpdates(services[i].1, a) else [])
  {
    assert services[..i + 1][..i] == services[..i];
  }

  /** Everything the prompts collect, in the order run_setup asks for it. */
  function Collected(a: Answers): seq<(string, string)> {
    DatabaseUpdates(a) + TestUserUpdates(a) + JwtUpdates(a) + OauthUpdates(a) + ServiceUpdates(Services, a)
  }

  // ---------------------------------------------------------------------
  // The .env text
  // ---------------------------------------------------------------------

  /** The categories of create_env_file and their variables, in dictionary order. */
  const Categories: seq<(string, seq<string>)> := [
    ("Database Configuration", ["DB_HOST", "DB_PORT", "DB_NAME", "DB_USERNAME", "DB_PASSWORD"]),
    ("Development Test Users", ["DEV_TEST_USER", "DEV_TEST_PASSWORD", "DEV_ADMIN_USER", "DEV_ADMIN_PASSWORD"]),
    ("Production Test Users", ["PROD_TEST_USER", "PROD_TEST_PASSWORD", "PROD_ADMIN_USER", "PROD_ADMIN_PASSWORD"]),
    ("JWT Secrets", ["JWT_SECRET_PROD", "JWT_REFRESH_SECRET_PROD"]),
    ("OAuth Configuration", ["GOOGLE_CLIENT_ID_PROD", "GOOGLE_CLIENT_SECRET_PROD", "FACEBOOK_APP_ID_PROD",
                             "FACEBOOK_APP_SECRET_PROD"]),
    ("CI/CD", ["GITHUB_TOKEN", "SLACK_WEBHOOK_URL"]),
    ("External Services", ["BROWSERSTACK_USERNAME", "BROWSERSTACK_ACCESS_KEY"]),
    ("Email Reports", ["REPORT_EMAIL_SENDER", "REPORT_EMAIL_PASSWORD"])]

  /** The three comment lines and the blank line that open the file. */
  function Header(date: string): string {
    "# WordMate Test Environment Variables\n" + "# Generated by quick_setup.py\n"
    + "# Created: " + Strip(date) + "\n\n"
  }

  /** The items of the dictionary whose key is among `names`, in insertion order. */
  function Selected(names: seq<string>, d: Dict): Dict {
    Filter((e: (string, string)) => e.0 in names, d)
  }

  /** The `NAME=value` line of an item. */
  function Line(item: (string, string)): string {
    item.0 + "=" + item.1 + "\n"
  }

  /** One line per item. */
  function Lines(d: Dict): string {
    if d == [] then "" else Lines(d[..|d| - 1]) + Line(d[|d| - 1])
  }

  /** The lines of a category: its header, its variables and a blank line,
      or nothing when no collected variable belongs to it. */
  function Block(category: string, names: seq<string>, d: Dict): string {
    var items := Selected(names, d);
    if items == [] then "" else "# " + category + "\n" + Lines(items) + "\n"
  }

  function Blocks(categories: seq<(string, seq<string>)>, d: Dict): string {
    if categories == [] then ""
    else
      var c := categories[|categories| - 1];
      Blocks(categories[..|categories| - 1], d) + Block(c.0, c.1, d)
  }

  /** The text create_env_file writes. */
  function EnvFileContent(d: Dict, date: string): string {
    Header(date) + Blocks(Categories, d)
  }

  /** Some collected variable belongs to the category exactly when the
      selection is not empty. */
  lemma SelectedNonEmpty(names: seq<string>, d: Dict)
    ensures Selected(names, d) != [] <==> exists i :: 0 <= i < |d| && d[i].0 in names
  {
    if exists i :: 0 <= i < |d| && d[i].0 in names {
      var i :| 0 <= i < |d| && d[i].0 in names;
      FilterKeeps((e: (string, string)) => e.0 in names, d, d[i]);
    }
    if Selected(names, d) != [] {
      var e := Selected(names, d)[0];
      assert e in d && e.0 in names;
      var i :| 0 <= i < |d| && d[i] == e;
      assert d[i].0 in names;
    }
  }

  /** Text made of a header and a body ending in a newline starts with the
      header and ends with the newline. */
  lemma Framed(header: string, body: string)
    ensures StartsWith(header + body + "\n", header) && EndsWith(header + body + "\n", "\n")
  {
    assert (header + body + "\n")[..|header|] == header;
  }

  /** A category's header is written exactly when one of the collected
      variables belongs to it, and its block ends with a blank line. */
  lemma BlockShape(category: string, names: seq<string>, d: Dict)
    ensures Block(category, names, d) != "" <==> exists i :: 0 <= i < |d| && d[i].0 in names
    ensures Block(category, names, d) != "" ==>
      StartsWith(Block(category, names, d), "# " + category + "\n") && EndsWith(Block(category, names, d), "\n")
  {
    SelectedNonEmpty(names, d);
    if Selected(names, d) != [] {
      Framed("# " + category + "\n", Lines(Selected(names, d)));
    }
  }

  /** Within a category the lines follow the dictionary's insertion order:
      the items of a dictionary built in two parts are the items of the
      first part followed by those of the second. */
  lemma SelectedInOrder(names: seq<string>, a: Dict, b: Dict)
    ensures Selected(names, a + b) == Selected(names, a) + Selected(names, b)
    ensures Lines(Selected(names, a + b)) == Lines(Selected(names, a)) + Lines(Selected(names, b))
  {
    FilterConcat((e: (string, string)) => e.0 in names, a, b);
    LinesConcat(Selected(names, a), Selected(names, b));
  }

  lemma {:induction false} LinesConcat(a: Dict, b: Dict)
    ensures Lines(a + b) == Lines(a) + Lines(b)
    decreases |b|
  {
    if b == [] {
      assert a + b == a;
    } else {
      var b', last := b[..|b| - 1], b[|b| - 1];
      assert (a + b)[..|a + b| - 1] == a + b';
      assert (a + b)[|a + b| - 1] == last;
      LinesConcat(a, b');
      calc {
        Lines(a + b);
        Lines(a + b') + Line(last);
        (Lines(a) + Lines(b')) + Line(last);
        Lines(a) + (Lines(b') + Line(last));
        Lines(a) + Lines(b);
      }
    }
  }

  /** The name belongs to some category. */
  predicate Categorised(name: string) {
    exists c :: 0 <= c < |Categories| && name in Categories[c].1
  }

  /** Dropping items that no selection can keep does not change the selection. */
  lemma {:induction false} SelectedOfKept(names: seq<string>, keep: ((string, string)) -> bool, d: Dict)
    requires forall e: (string, string) :: e.0 in names ==> keep(e)
    ensures Selected(names, Filter(keep, d)) == Selected(names, d)
    decreases |d|
  {
    if d != [] {
      var init, last := d[..|d| - 1], d[|d| - 1];
      var sel := (e: (string, string)) => e.0 in names;
      SelectedOfKept(names, keep, init);
      var kept := if keep(last) then [last] else [];
      var chosen := if sel(last) then [last] else [];
      assert Filter(keep, d) == Filter(keep, init) + kept;
      FilterConcat(sel, Filter(keep, init), kept);
      assert Filter(sel, d) == Filter(sel, init) + chosen;
      assert Filter(sel, kept) == chosen by {
        if keep(last) {
          assert kept[..0] == [];
        }
      }
    }
  }

  lemma {:induction false} BlocksOfKept(categories: seq<(string, seq<string>)>, keep: ((string, string)) -> bool, d: Dict)
    requires forall c, e: (string, string) :: 0 <= c < |categories| && e.0 in categories[c].1 ==> keep(e)
    ensures Blocks(categories, Filter(keep, d)) == Blocks(categories, d)
    decreases |categories|
  {
    if categories != [] {
      var c := categories[|categories| - 1];
      BlocksOfKept(categories[..|categories| - 1], keep, d);
      SelectedOfKept(c.1, keep, d);
    }
  }

  /** Collected variables that belong to no category leave no trace in the
      file: it is the file of the categorised variables alone. */
  lemma UncategorisedNotWritten(d: Dict, date: string)
    ensures EnvFileContent(d, date) == EnvFileContent(Filter((e: (string, string)) => Categorised(e.0), d), date)
  {
    BlocksOfKept(Categories, (e: (string, string)) => Categorised(e.0), d);
  }

  /** The block of one category, built as create_env_file builds it. */
  method CategoryBlock(category: string, names: seq<string>, d: Dict) returns (block: string)
    ensures block == Block(category, names, d)
  {
    var items := Selected(names, d);
    block := "";
    if items != [] {
      block := "# " + category + "\n";
      var lines := "";
      var i := 0;
      while i < |items|
        invariant 0 <= i <= |items|
        invariant lines == Lines(items[..i])
      {
        assert items[..i + 1][..i] == items[..i];
        lines := lines + items[i].0 + "=" + items[i].1 + "\n";
        i := i + 1;
      }
      assert items[..i] == items;
      block := block + lines + "\n";
    }
  }

  /** The loop of create_env_file over the categories, in order. */
  method CategoryBlocks(categories: seq<(string, seq<string>)>, d: Dict) returns (blocks: string)
    ensures blocks == Blocks(categories, d)
  {
    blocks := "";
    var i := 0;
    while i < |categories|
      invariant 0 <= i <= |categories|
      invariant blocks == Blocks(categories[..i], d)
    {
      assert categories[..i + 1][..i] == categories[..i];
      var block := CategoryBlock(categories[i].0, categories[i].1, d);
      blocks := blocks + block;
      i := i + 1;
    }
    assert categories[..i] == categories;
  }

  // ---------------------------------------------------------------------
  // The setup object
  // ---------------------------------------------------------------------

  class Setup {
    var envVars: Dict

    ghost predicate Valid()
      reads this
    {
      DistinctKeys(envVars)
    }

    constructor()
      ensures Valid() && envVars == []
    {
      envVars := [];
    }

    /** Assign `v` to key `k` of the collected variables: the value is
        replaced in place when `k` is already a key, else the pair is appended. */
    method Set(k: string, v: string)
      requires Valid()
      modifies this
      ensures Valid() && envVars == DictSet(old(envVars), k, v)
    {
      DictSetDistinct(envVars, k, v);
      envVars := DictSet(envVars, k, v);
    }

    /** Assign each of `updates` in order. */
    method SetEach(updates: seq<(string, string)>)
      requires Valid()
      modifies this
      ensures Valid() && envVars == SetAll(old(envVars), updates)
    {
      var i := 0;
      while i < |updates|
        invariant 0 <= i <= |updates|
        invariant Valid() && envVars == SetAll(old(envVars), updates[..i])
      {
        assert updates[..i + 1][..i] == updates[..i];
        Set(updates[i].0, updates[i].1);
        i := i + 1;
      }
      assert updates[..i] == updates;
    }

    /** get_database_credentials */
    method GetDatabaseCredentials(a: Answers)
      requires Valid()
      modifies this
      ensures Valid() && envVars == SetAll(old(envVars), DatabaseUpdates(a))
    {
      SetEach(DatabaseUpdates(a));
    }

    /** get_test_credentials */
    method GetTestCredentials(a: Answers)
      requires Valid()
      modifies this
      ensures Valid() && envVars == SetAll(old(envVars), TestUserUpdates(a))
    {
      SetEach(TestUserUpdates(a));
    }

    /** get_jwt_secrets */
    method GetJwtSecrets(a: Answers)
      requires Valid()
      modifies this
      ensures Valid() && envVars == SetAll(old(envVars), JwtUpdates(a))
    {
      SetEach(JwtUpdates(a));
    }

    /** get_oauth_credentials */
    method GetOauthCredentials(a: Answers)
      requires Valid()
      modifies this
      ensures Valid() && envVars == SetAll(old(envVars), OauthUpdates(a))
    {
      SetEach(OauthUpdates(a));
    }

    /** The inner loop of get_optional_services for one configured service. */
    method ConfigureService(vars: seq<string>, a: Answers)
      requires Valid()
      modifies this
      ensures Valid() && envVars == SetAll(old(envVars), VarUpdates(vars, a))
    {
      var i := 0;
      while i < |vars|
        invariant 0 <= i <= |vars|
        invariant Valid() && envVars == SetAll(old(envVars), VarUpdates(vars[..i], a))
      {
        var name := vars[i];
        var value := ServiceValue(name, a);
        ghost var done := VarUpdates(vars[..i], a);
        VarUpdatesStep(vars, i, a);
        if Strip(value) != "" {
          assert VarUpdates(vars[..i + 1], a) == done + [(name, value)];
          SetAllStep(old(envVars), done, name, value);
          Set(name, value);
        } else {
          assert VarUpdates(vars[..i + 1], a) == done + [];
          assert done + [] == done;
        }
        i := i + 1;
      }
      assert vars[..i] == vars;
    }

    /** The outer loop of get_optional_services: each service the user
        chooses to configure has its variables asked for. */
    method ConfigureServices(services: seq<(string, seq<string>)>, a: Answers)
      requires Valid()
      modifies this
      ensures Valid() && envVars == SetAll(old(envVars), ServiceUpdates(services, a))
    {
      var i := 0;
      while i < |services|
        invariant 0 <= i <= |services|
        invariant Valid() && envVars == SetAll(old(envVars), ServiceUpdates(services[..i], a))
      {
        var service := services[i];
        ghost var done := ServiceUpdates(services[..i], a);
        ServiceUpdatesStep(services, i, a);
        if Yes(a.configureService(service.0)) {
          assert ServiceUpdates(services[..i + 1], a) == done + VarUpdates(service.1, a);
          SetAllConcat(old(envVars), done, VarUpdates(service.1, a));
          ConfigureService(service.1, a);
        } else {
          assert ServiceUpdates(services[..i + 1], a) == done + [];
          assert done + [] == done;
        }
        i := i + 1;
      }
      assert services[..i] == services;
    }

    /** get_optional_services */
    method GetOptionalServices(a: Answers)
      requires Valid()
      modifies this
      ensures Valid() && envVars == SetAll(old(envVars), ServiceUpdates(Services, a))
    {
      ConfigureServices(Services, a);
    }

    /** create_env_file: the text, and whether writing it succeeded. */
    method CreateEnvFile(date: string, writeOk: bool) returns (ok: bool, content: string)
      ensures content == EnvFileContent(envVars, date) && ok == writeOk
    {
      content := Header(date);
      var blocks := CategoryBlocks(Categories, envVars);
      content := content + blocks;
      ok := writeOk;
    }

    /** run_setup: the overwrite check, the prompts in order, and the file. */
    method RunSetup(envFileExists: bool, overwriteAnswer: string, a: Answers, date: string, writeOk: bool)
      returns (success: bool, written: Option<string>)
      requires Valid()
      modifies this
      ensures Valid()
      ensures success <==> ProceedWithSetup(envFileExists, overwriteAnswer) && writeOk
      ensures !ProceedWithSetup(envFileExists, overwriteAnswer) ==> envVars == old(envVars) && written == None
      ensures ProceedWithSetup(envFileExists, overwriteAnswer) ==>
        envVars == SetAll(old(envVars), Collected(a))
        && written == (if writeOk then Some(EnvFileContent(envVars, date)) else None)
    {
      if !ProceedWithSetup(envFileExists, overwriteAnswer) {
        return false, None;
      }
      ghost var start := envVars;
      GetDatabaseCredentials(a);
      GetTestCredentials(a);
      GetJwtSecrets(a);
      GetOauthCredentials(a);
      GetOptionalServices(a);
      SetAllConcat(start, DatabaseUpdates(a), TestUserUpdates(a));
      SetAllConcat(start, DatabaseUpdates(a) + TestUserUpdates(a), JwtUpdates(a));
      SetAllConcat(start, DatabaseUpdates(a) + TestUserUpdates(a) + JwtUpdates(a), OauthUpdates(a));
      SetAllConcat(start, DatabaseUpdates(a) + TestUserUpdates(a) + JwtUpdates(a) + OauthUpdates(a),
                   ServiceUpdates(Services, a));
      var ok, content := CreateEnvFile(date, writeOk);
      success := ok;
      written := if ok then Some(content) else None;
    }
  }
}
