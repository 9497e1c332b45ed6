/** The API client library used by the test suites: the session state it
    keeps (base URL, authentication token, refresh token and session
    headers), the request it builds and the response it returns, the
    endpoint and body builders, the claim check on a decoded token, the
    OAuth URL and the selection of test data to clean up. The HTTP transport,
    the token decoder, the clock and the process environment are inputs. */
module WordmateApi {
  import opened Base
  import opened PyValue
  import D = OrderedDict

  // ---------------------------------------------------------------------
  // Requests and responses
  // ---------------------------------------------------------------------

  /** What the session sends. */
  datatype HttpRequest = HttpRequest(verb: string, url: string, json: Option<Value>,
                                     headers: D.Dict, timeout: int)

  /** What comes back: the status, the body text, the body parsed as JSON
      (None when it is not JSON) and the response headers. */
  datatype HttpResponse = HttpResponse(status: int, text: string, json: Option<Value>, headers: D.Dict)

  /** The dictionary make_api_request returns. */
  datatype ApiResponse = ApiResponse(statusCode: int, data: Value, headers: D.Dict)

  /** The session's transport: a response, or Err(RequestError) when the
      request fails. */
  type Transport = HttpRequest -> Result<HttpResponse>

  /** The request URL: the base URL followed by the endpoint, where an unset
      base URL renders as "None". */
  function RequestUrl(baseUrl: Option<string>, endpoint: string): string {
    (if baseUrl.Some? then baseUrl.value else "None") + endpoint
  }

  /** The URL is the base URL followed by the endpoint. */
  lemma RequestUrlShape(baseUrl: string, endpoint: string)
    ensures StartsWith(RequestUrl(Some(baseUrl), endpoint), baseUrl)
    ensures EndsWith(RequestUrl(Some(baseUrl), endpoint), endpoint)
    ensures |RequestUrl(Some(baseUrl), endpoint)| == |baseUrl| + |endpoint|
  {
    var u := RequestUrl(Some(baseUrl), endpoint);
    assert u[..|baseUrl|] == baseUrl;
    assert u[|u| - |endpoint|..] == endpoint;
  }

  /** A copy of the session headers updated with the per-call headers. */
  function MergeHeaders(session: D.Dict, extra: D.Dict): D.Dict {
    D.SetAll(session, extra)
  }

  /** A per-call header overrides the session header of the same name; every
      other session header is sent as it is. */
  lemma MergeHeadersGet(session: D.Dict, extra: D.Dict, name: string)
    requires D.DistinctKeys(extra)
    ensures D.Get(MergeHeaders(session, extra), name)
      == if D.Get(extra, name).Some? then D.Get(extra, name) else D.Get(session, name)
  {
    D.SetAllGet(session, extra, name);
    D.LastForGet(extra, name);
  }

  /** response.json(), or {"text": response.text} when the body is not JSON. */
  function ResponseData(resp: HttpResponse): Value {
    if resp.json.Some? then resp.json.value else Dict([Entry("text", Str(resp.text))])
  }

  /** A body that is not JSON is returned under "text", and only there. */
  lemma NonJsonBody(resp: HttpResponse)
    requires resp.json.None?
    ensures GetItem(ResponseData(resp), "text") == Ok(Str(resp.text))
    ensures forall k :: k != "text" ==> GetItem(ResponseData(resp), k) == Err(KeyError)
  {
    var es := [Entry("text", Str(resp.text))];
    assert Lookup(es, "text") == Some(Str(resp.text));
  }

  /** The outcome of make_api_request for what the transport gave back:
      the request error is raised again, and any status is returned. */
  function Interpret(raw: Result<HttpResponse>): Result<ApiResponse> {
    match raw
    case Err(e) => Err(e)
    case Ok(resp) => Ok(ApiResponse(resp.status, ResponseData(resp), resp.headers))
  }

  /** The client's state. */
  datatype Session = Session(baseUrl: Option<string>, authToken: Option<Value>,
                             refreshToken: Option<Value>, headers: D.Dict)

  function BuildRequest(s: Session, timeout: int, verb: string, endpoint: string,
                        data: Option<Value>, extra: D.Dict): HttpRequest {
    HttpRequest(verb, RequestUrl(s.baseUrl, endpoint), data, MergeHeaders(s.headers, extra), timeout)
  }

  /** The Authorization header for a token. */
  function Bearer(token: Value): string {
    "Bearer " + StrOf(token)
  }

  /** set_auth_token */
  function WithToken(s: Session, token: Value): Session {
    s.(authToken := Some(token), headers := D.DictSet(s.headers, "Authorization", Bearer(token)))
  }

  /** clear_auth_token: the refresh token is left as it is. */
  function Cleared(s: Session): Session {
    s.(authToken := None, headers := D.Remove(s.headers, "Authorization"))
  }

  /** After set_auth_token the token is stored, it is sent as a bearer
      header, and every other header keeps its value. */
  lemma WithTokenHeaders(s: Session, token: Value, name: string)
    ensures WithToken(s, token).authToken == Some(token)
    ensures D.Get(WithToken(s, token).headers, name)
      == if name == "Authorization" then Some("Bearer " + StrOf(token)) else D.Get(s.headers, name)
  {
    D.DictSetGet(s.headers, "Authorization", Bearer(token), name);
  }

  /** After clear_auth_token there is no token and no Authorization header,
      and every other header keeps its value. */
  lemma ClearedHeaders(s: Session, name: string)
    requires D.DistinctKeys(s.headers)
    ensures Cleared(s).authToken == None && !D.HasKey(Cleared(s).headers, "Authorization")
    ensures D.Get(Cleared(s).headers, name) == if name == "Authorization" then None else D.Get(s.headers, name)
  {
    D.RemoveItems(s.headers, "Authorization");
    D.RemoveGet(s.headers, "Authorization", name);
  }

  /** Clearing twice is clearing once. */
  lemma ClearIdempotent(s: Session)
    requires D.DistinctKeys(s.headers)
    ensures Cleared(Cleared(s)) == Cleared(s)
  {
    D.RemoveIdempotent(s.headers, "Authorization");
  }

  /** Setting a token on a session without one and clearing it again gives
      back the session's headers. */
  lemma ClearUndoesSet(s: Session, token: Value)
    requires !D.HasKey(s.headers, "Authorization")
    ensures Cleared(WithToken(s, token)).headers == s.headers
    ensures Cleared(WithToken(s, token)).authToken == None
  {
    D.DictSetPlace(s.headers, "Authorization", Bearer(token));
    D.RemoveAppended(s.headers, "Authorization", Bearer(token));
  }

  /** What login_user does with the response: the token only on status 200
      with a "token" field, the refresh token only then and only when the
      response carries one. An error is the exception the indexing raises. */
  function LoginEffect(s: Session, resp: ApiResponse): Result<Session> {
    if resp.statusCode != 200 then Ok(s)
    else
      var hasToken :- In("token", resp.data);
      if !hasToken then Ok(s)
      else
        var token :- GetItem(resp.data, "token");
        var withToken := WithToken(s, token);
        var hasRefresh :- In("refreshToken", resp.data);
        if !hasRefresh then Ok(withToken)
        else
          var refresh :- GetItem(resp.data, "refreshToken");
          Ok(withToken.(refreshToken := Some(refresh)))
  }

  /** The token changes only on status 200 with a "token" field; the refresh
      token changes only then and only when the response carries one. */
  lemma LoginOnlyOnSuccess(s: Session, resp: ApiResponse)
    ensures LoginEffect(s, resp).Ok? && LoginEffect(s, resp).value.authToken != s.authToken ==>
      resp.statusCode == 200 && In("token", resp.data) == Ok(true)
    ensures LoginEffect(s, resp).Ok? && LoginEffect(s, resp).value.refreshToken != s.refreshToken ==>
      resp.statusCode == 200 && In("token", resp.data) == Ok(true) && In("refreshToken", resp.data) == Ok(true)
    ensures resp.statusCode != 200 ==> LoginEffect(s, resp) == Ok(s)
  {
  }

  /** A successful login with a JSON object body stores the token it names,
      sends it as a bearer header, and stores the refresh token when one is
      given and keeps the old one otherwise. */
  lemma LoginStoresToken(s: Session, resp: ApiResponse)
    requires resp.statusCode == 200 && resp.data.Dict? && HasKey(resp.data.entries, "token")
    ensures LoginEffect(s, resp).Ok?
    ensures LoginEffect(s, resp).value.authToken == Lookup(resp.data.entries, "token")
    ensures D.Get(LoginEffect(s, resp).value.headers, "Authorization")
      == Some("Bearer " + StrOf(Lookup(resp.data.entries, "token").value))
    ensures LoginEffect(s, resp).value.refreshToken
      == if HasKey(resp.data.entries, "refreshToken") then Lookup(resp.data.entries, "refreshToken") else s.refreshToken
  {
    var token := Lookup(resp.data.entries, "token").value;
    WithTokenHeaders(s, token, "Authorization");
  }

  /** login_user's request body. */
  function LoginData(username: string, password: string): Value {
    Dict([Entry("username", Str(username)), Entry("password", Str(password))])
  }

  // ---------------------------------------------------------------------
  // The client object
  // ---------------------------------------------------------------------

  class Client {
    var baseUrl: Option<string>
    const timeout: int
    var authToken: Option<Value>
    var refreshToken: Option<Value>
    /** The session headers. */
    var headers: D.Dict

    function State(): Session
      reads this
    {
      Session(baseUrl, authToken, refreshToken, headers)
    }

    ghost predicate Valid()
      reads this
    {
      D.DistinctKeys(headers)
    }

    /** A new client: no token, and the session's default headers. */
    constructor(baseUrl: Option<string>, timeout: int, defaultHeaders: D.Dict)
      requires D.DistinctKeys(defaultHeaders)
      ensures Valid() && State() == Session(baseUrl, None, None, defaultHeaders) && this.timeout == timeout
    {
      this.baseUrl := baseUrl;
      this.timeout := timeout;
      authToken := None;
      refreshToken := None;
      headers := defaultHeaders;
    }

    /** set_api_base_url */
    method SetApiBaseUrl(url: string)
      modifies this
      ensures State() == old(State()).(baseUrl := Some(url))
    {
      baseUrl := Some(url);
    }

    /** set_auth_token */
    method SetAuthToken(token: Value)
      requires Valid()
      modifies this
      ensures Valid() && State() == WithToken(old(State()), token)
    {
      D.DictSetDistinct(headers, "Authorization", Bearer(token));
      authToken := Some(token);
      headers := D.DictSet(headers, "Authorization", Bearer(token));
    }

    /** clear_auth_token */
    method ClearAuthToken()
      requires Valid()
      modifies this
      ensures Valid() && State() == Cleared(old(State()))
    {
      authToken := None;
      D.RemoveItems(headers, "Authorization");
      if D.HasKey(headers, "Authorization") {
        headers := D.Remove(headers, "Authorization");
      } else {
        D.RemoveAbsent(headers, "Authorization");
      }
    }

    /** make_api_request: the request goes out with the merged headers, the
        session's own headers are left as they are (the method modifies
        nothing), a status other than the expected one only sets the warning,
        and a transport error is raised again. */
    method MakeApiRequest(verb: string, endpoint: string, data: Option<Value>, extra: D.Dict,
                          expectedStatus: int, transport: Transport)
      returns (r: Result<ApiResponse>, statusWarning: bool)
      ensures r == Interpret(transport(BuildRequest(State(), timeout, verb, endpoint, data, extra)))
      ensures r.Err? <==> transport(BuildRequest(State(), timeout, verb, endpoint, data, extra)).Err?
      ensures statusWarning <==> r.Ok? && r.value.statusCode != expectedStatus
    {
      var url := RequestUrl(baseUrl, endpoint);
      var requestHeaders := MergeHeaders(headers, extra);
      var raw := transport(HttpRequest(verb, url, data, requestHeaders, timeout));
      if raw.Err? {
        return Err(raw.error), false;
      }
      var resp := raw.value;
      statusWarning := resp.status != expectedStatus;
      var responseData := if resp.json.Some? then resp.json.value else Dict([Entry("text", Str(resp.text))]);
      r := Ok(ApiResponse(resp.status, responseData, resp.headers));
    }

    /** login_user */
    method LoginUser(username: string, password: string, transport: Transport)
      returns (r: Result<ApiResponse>)
      requires Valid()
      modifies this
      ensures Valid()
      ensures var raw := Interpret(transport(BuildRequest(old(State()), timeout, "POST", "?endpoint=login",
                                                          Some(LoginData(username, password)), [])));
        if raw.Err? then r == raw && State() == old(State())
        else match LoginEffect(old(State()), raw.value)
          case Err(e) => r == Err(e) && State() == old(State())
          case Ok(s) => r == raw && State() == s
    {
      var response, _ := MakeApiRequest("POST", "?endpoint=login", Some(LoginData(username, password)), [],
                                        200, transport);
      if response.Err? {
        return response;
      }
      var resp := response.value;
      if resp.statusCode == 200 {
        var hasToken := In("token", resp.data);
        if hasToken.Err? {
          return Err(hasToken.error);
        }
        if hasToken.value {
          var token := GetItem(resp.data, "token");
          if token.Err? {
            return Err(token.error);
          }
          SetAuthToken(token.value);
          var hasRefresh := In("refreshToken", resp.data);
          // resp.data is a dict here, so the test cannot fail
          if hasRefresh.Ok? && hasRefresh.value {
            var refresh := GetItem(resp.data, "refreshToken");
            refreshToken := Some(refresh.value);
          }
        }
      }
      r := response;
    }
  }

  // ---------------------------------------------------------------------
  // Endpoints and bodies
  // ---------------------------------------------------------------------

  /** Python truthiness of an optional string argument. */
  predicate Given(arg: Option<string>) {
    arg.Some? && arg.value != ""
  }

  function VocabularyListPrefix(page: int, limit: int): string {
    "?endpoint=vocabulario&page=" + IntToString(page) + "&limit=" + IntToString(limit)
  }

  /** get_vocabulary_list's endpoint. */
  function VocabularyListEndpoint(page: int, limit: int, search: Option<string>): string {
    VocabularyListPrefix(page, limit) + (if Given(search) then "&search=" + search.value else "")
  }

  /** get_grammar_exercises's endpoint. */
  function GrammarExercisesEndpoint(category: Option<string>): string {
    "?endpoint=grammarExercises" + (if Given(category) then "&category=" + category.value else "")
  }

  /** The page and the limit are always sent; the search parameter is
      appended, last, exactly when a search term is given. */
  lemma VocabularyListShape(page: int, limit: int, search: Option<string>)
    ensures StartsWith(VocabularyListEndpoint(page, limit, search), VocabularyListPrefix(page, limit))
    ensures Given(search) <==> |VocabularyListEndpoint(page, limit, search)| > |VocabularyListPrefix(page, limit)|
    ensures Given(search) ==> EndsWith(VocabularyListEndpoint(page, limit, search), "&search=" + search.value)
    ensures !Given(search) ==> VocabularyListEndpoint(page, limit, search) == VocabularyListPrefix(page, limit)
  {
    var p := VocabularyListPrefix(page, limit);
    var e := VocabularyListEndpoint(page, limit, search);
    assert e[..|p|] == p;
    if Given(search) {
      assert e[|e| - |"&search=" + search.value|..] == "&search=" + search.value;
    }
  }

  /** The category parameter is appended exactly when a category is given. */
  lemma GrammarExercisesShape(category: Option<string>)
    ensures StartsWith(GrammarExercisesEndpoint(category), "?endpoint=grammarExercises")
    ensures Given(category) <==> |GrammarExercisesEndpoint(category)| > |"?endpoint=grammarExercises"|
    ensures Given(category) ==> EndsWith(GrammarExercisesEndpoint(category), "&category=" + category.value)
  {
    var e := GrammarExercisesEndpoint(category);
    assert e[..|"?endpoint=grammarExercises"|] == "?endpoint=grammarExercises";
    if Given(category) {
      assert e[|e| - |"&category=" + category.value|..] == "&category=" + category.value;
    }
  }

  /** create_custom_vocabulary's request body. */
  function CustomVocabularyData(word: string, definition: string, pronunciation: Option<string>): Value {
    Dict([Entry("word", Str(word)), Entry("definition", Str(definition))]
         + (if Given(pronunciation) then [Entry("pronunciation", Str(pronunciation.value))] else []))
  }

  /** The body always carries the word and the definition, and carries a
      pronunciation exactly when one is given. */
  lemma CustomVocabularyFields(word: string, definition: string, pronunciation: Option<string>)
    ensures GetItem(CustomVocabularyData(word, definition, pronunciation), "word") == Ok(Str(word))
    ensures GetItem(CustomVocabularyData(word, definition, pronunciation), "definition") == Ok(Str(definition))
    ensures HasKey(CustomVocabularyData(word, definition, pronunciation).entries, "pronunciation") <==> Given(pronunciation)
    ensures Given(pronunciation) ==>
      GetItem(CustomVocabularyData(word, definition, pronunciation), "pronunciation") == Ok(Str(pronunciation.value))
  {
    var es := CustomVocabularyData(word, definition, pronunciation).entries;
    assert es[0] == Entry("word", Str(word)) && es[1] == Entry("definition", Str(definition));
    if Given(pronunciation) {
      assert es[2] == Entry("pronunciation", Str(pronunciation.value));
    } else {
      assert |es| == 2;
    }
  }

  // ---------------------------------------------------------------------
  // Token claims
  // ---------------------------------------------------------------------

  const RequiredClaims: seq<string> := ["exp", "iat", "sub"]

  /** The required-field loop: false at the first missing field; an error
      when the decoded value cannot be searched. */
  function ClaimsPresent(decoded: Value, fields: seq<string>): Result<bool> {
    if fields == [] then Ok(true)
    else
      var present :- In(fields[0], decoded);
      if !present then Ok(false) else ClaimsPresent(decoded, fields[1..])
  }

  lemma {:induction false} ClaimsPresentMeaning(entries: seq<Entry>, fields: seq<string>)
    ensures ClaimsPresent(Dict(entries), fields) == Ok(forall k :: 0 <= k < |fields| ==> HasKey(entries, fields[k]))
    decreases |fields|
  {
    if fields != [] {
      ClaimsPresentMeaning(entries, fields[1..]);
      assert forall k :: 1 <= k < |fields| ==> fields[k] == fields[1..][k - 1];
    }
  }

  /** exp < time.time(), or the error comparing a non-number raises. */
  function ExpiredAt(exp: Value, now: real): Result<bool> {
    match exp
    case Int(n) => Ok((n as real) < now)
    case Bool(b) => Ok(((if b then 1 else 0) as real) < now)
    case _ => Err(TypeError)
  }

  /** validate_jwt_token after decoding: every exception is false. */
  function ClaimsValid(decoded: Value, now: real): bool {
    match ClaimsPresent(decoded, RequiredClaims)
    case Err(_) => false
    case Ok(present) =>
      present &&
      match GetOrDefault(decoded, "exp", Null)
      case Err(_) => false
      case Ok(exp) =>
        !Truthy(exp) ||
        match ExpiredAt(exp, now)
        case Err(_) => false
        case Ok(expired) => !expired
  }

  /** validate_jwt_token: a token that does not decode is invalid. */
  function ValidateJwtToken(token: string, decode: string -> Option<Value>, now: real): bool {
    decode(token).Some? && ClaimsValid(decode(token).value, now)
  }

  /** The claim rules for a decoded object: a missing exp, iat or sub is
      invalid; with all three present and an integer exp, the token is valid
      exactly when exp is 0 or not before the current time. */
  lemma ClaimRules(entries: seq<Entry>, now: real)
    ensures (!HasKey(entries, "exp") || !HasKey(entries, "iat") || !HasKey(entries, "sub"))
      ==> !ClaimsValid(Dict(entries), now)
    ensures (HasKey(entries, "exp") && HasKey(entries, "iat") && HasKey(entries, "sub")
      && Lookup(entries, "exp").value.Int?) ==>
      (ClaimsValid(Dict(entries), now) <==>
        (Lookup(entries, "exp").value.i == 0 || Lookup(entries, "exp").value.i as real >= now))
  {
    ClaimsPresentMeaning(entries, RequiredClaims);
    assert RequiredClaims[0] == "exp" && RequiredClaims[1] == "iat" && RequiredClaims[2] == "sub";
  }

  // ---------------------------------------------------------------------
  // OAuth
  // ---------------------------------------------------------------------

  function GoogleOauthUrl(clientId: Option<string>, redirectUrl: string): string {
    "https://accounts.google.com/oauth/authorize?client_id=" + (if clientId.Some? then clientId.value else "None")
    + "&" + "redirect_uri=" + redirectUrl + "&scope=email profile&response_type=code"
  }

  function FacebookOauthUrl(redirectUrl: string): string {
    "https://www.facebook.com/v18.0/dialog/oauth?" + "redirect_uri=" + redirectUrl
  }

  /** generate_oauth_url; the Google client id is the process environment's
      GOOGLE_CLIENT_ID, None when unset. */
  function GenerateOauthUrl(provider: string, redirectUrl: string, googleClientId: Option<string>): Result<string> {
    if Lower(provider) == "google" then Ok(GoogleOauthUrl(googleClientId, redirectUrl))
    else if Lower(provider) == "facebook" then Ok(FacebookOauthUrl(redirectUrl))
    else Err(ValueError)
  }

  lemma OccursBetween(p: string, m: string, q: string)
    ensures Contains(p + m + q, m)
  {
    assert (p + m + q)[|p|..|p| + |m|] == m;
    assert OccursAt(p + m + q, m, |p|);
    ContainsIff(p + m + q, m);
  }

  /** Only google and facebook are known, in any letter case; any other
      provider is a ValueError. A URL always carries the redirect. */
  lemma OauthProviders(provider: string, redirectUrl: string, googleClientId: Option<string>)
    ensures GenerateOauthUrl(provider, redirectUrl, googleClientId).Ok?
      <==> Lower(provider) == "google" || Lower(provider) == "facebook"
    ensures GenerateOauthUrl(provider, redirectUrl, googleClientId).Err? ==>
      GenerateOauthUrl(provider, redirectUrl, googleClientId).error == ValueError
    ensures GenerateOauthUrl(provider, redirectUrl, googleClientId)
      == GenerateOauthUrl(Lower(provider), redirectUrl, googleClientId)
    ensures GenerateOauthUrl(provider, redirectUrl, googleClientId).Ok? ==>
      Contains(GenerateOauthUrl(provider, redirectUrl, googleClientId).value, "redirect_uri=" + redirectUrl)
  {
    LowerIdempotent(provider);
    var g := "https://accounts.google.com/oauth/authorize?client_id="
      + (if googleClientId.Some? then googleClientId.value else "None") + "&";
    assert GoogleOauthUrl(googleClientId, redirectUrl)
      == g + ("redirect_uri=" + redirectUrl) + "&scope=email profile&response_type=code";
    OccursBetween(g, "redirect_uri=" + redirectUrl, "&scope=email profile&response_type=code");
    assert FacebookOauthUrl(redirectUrl)
      == "https://www.facebook.com/v18.0/dialog/oauth?" + ("redirect_uri=" + redirectUrl) + "";
    OccursBetween("https://www.facebook.com/v18.0/dialog/oauth?", "redirect_uri=" + redirectUrl, "");
  }

  // ---------------------------------------------------------------------
  // Clean-up selection
  // ---------------------------------------------------------------------

  /** `for item in v`: a list gives its items, a string its characters, a
      dict its keys; anything else raises TypeError. */
  function Iterate(v: Value): Result<seq<Value>> {
    match v
    case List(xs) => Ok(xs)
    case Str(s) => Ok(seq(|s|, i requires 0 <= i < |s| => Str([s[i]])))
    case Dict(es) => Ok(seq(|es|, i requires 0 <= i < |es| => Str(es[i].key)))
    case _ => Err(TypeError)
  }

  /** The items of a listing response: data.get(key, []). */
  function Listed(data: Value, key: string): Result<seq<Value>> {
    var v :- GetOrDefault(data, key, List([]));
    Iterate(v)
  }

  /** An item to delete: a dict whose `field` is a string starting with "test_". */
  predicate IsTestItem(item: Value, field: string) {
    item.Dict? && GetOrDefault(item, field, Str("")).Ok? && GetOrDefault(item, field, Str("")).value.Str?
    && StartsWith(GetOrDefault(item, field, Str("")).value.s, "test_")
  }

  /** The DELETE endpoint for an item with an id. */
  function DeleteEndpoint(path: string, id: Value): string {
    "?endpoint=" + path + "&id=" + StrOf(id)
  }

  /** The DELETE endpoints the loop requests, in item order, and whether an
      exception stopped it (an item that is not a dict, a `field` that is not
      a string, or a test item without an id). */
  function CleanupDeletes(items: seq<Value>, field: string, path: string): (seq<string>, bool) {
    if items == [] then ([], false)
    else
      var item := items[0];
      match GetOrDefault(item, field, Str(""))
      case Err(_) => ([], true)
      case Ok(v) =>
        if !v.Str? then ([], true)
        else if !StartsWith(v.s, "test_") then CleanupDeletes(items[1..], field, path)
        else
          match GetItem(item, "id")
          case Err(_) => ([], true)
          case Ok(id) =>
            var rest := CleanupDeletes(items[1..], field, path);
            ([DeleteEndpoint(path, id)] + rest.0, rest.1)
  }

  /** Only test items are deleted, each by its id; when nothing stops the
      loop, every test item is deleted. */
  lemma {:induction false} CleanupSelection(items: seq<Value>, field: string, path: string)
    ensures forall x :: x in CleanupDeletes(items, field, path).0 ==>
      exists k :: 0 <= k < |items| && IsTestItem(items[k], field) && GetItem(items[k], "id").Ok?
        && x == DeleteEndpoint(path, GetItem(items[k], "id").value)
    ensures !CleanupDeletes(items, field, path).1 ==>
      forall k :: 0 <= k < |items| && IsTestItem(items[k], field) ==>
        GetItem(items[k], "id").Ok? && DeleteEndpoint(path, GetItem(items[k], "id").value) in CleanupDeletes(items, field, path).0
    decreases |items|
  {
    if items != [] {
      var rest := items[1..];
      CleanupSelection(rest, field, path);
      assert forall k :: 1 <= k < |items| ==> items[k] == rest[k - 1];
    }
  }
}
