/** The status-checked three-step login of src/lanisapi/auth.py and its
    twin lanisapi/authentication/authenticate.py: each step sends one
    request with the client's cookie jar, checks the status (302 for the
    first two, 200 for the last), and on success updates the jar and returns
    a value; otherwise it returns `None` and leaves the jar alone. A
    transport failure or a `None` URL raises, which ends the chain. */
module LoginChain {
  import opened Outcomes
  import opened PyStr
  import opened Http

  /** The jar a step leaves behind and what the step returned or raised. */
  datatype Run = Run(jar: Jar, outcome: Result<Option<string>>)

  /** `check_credentials` once the login POST answered `response`: on 302
      the jar gains `i` (the school id as text, default domain and path) and
      `SPH-Session` (the response's cookie, on ".hessen.de" and "/"), and
      the value stored is returned. */
  function Credentials(jar: Jar, schoolId: int, response: Result<Response>): (r: Run)
    ensures response.Err? ==> r == Run(jar, Err(response.error))
    ensures response.Ok? && response.value.status != Found ==> r == Run(jar, Ok(None))
    ensures response.Ok? && response.value.status == Found ==>
      r.jar.Keys == jar.Keys + {"i", "SPH-Session"}
      && r.jar["i"] == Cookie(Some(Decimal(schoolId)), "", "/")
      && r.jar["SPH-Session"] == Cookie(ResponseCookie(response.value, "SPH-Session"), ".hessen.de", "/")
      && (forall n :: n in jar && n != "i" && n != "SPH-Session" ==> r.jar[n] == jar[n])
      && r.outcome == Ok(ResponseCookie(response.value, "SPH-Session"))
    ensures r.outcome.Ok? && r.outcome.value.Some? ==> response.Ok? && response.value.status == Found
  {
    match response
    case Err(e) => Run(jar, Err(e))
    case Ok(resp) =>
      if resp.status == Found then
        var withId := SetCookie(jar, "i", Some(Decimal(schoolId)));
        var withSession := SetCookie(withId, "SPH-Session", ResponseCookie(resp, "SPH-Session"), ".hessen.de", "/");
        Run(withSession, Ok(GetCookie(withSession, "SPH-Session")))
      else Run(jar, Ok(None))
  }

  /** The `i` cookie the first step stores reads back as the school id. */
  lemma SchoolCookieParses(jar: Jar, schoolId: int, response: Response)
    requires response.status == Found
    ensures GetCookie(Credentials(jar, schoolId, Ok(response)).jar, "i").Some?
    ensures ParseInt(GetCookie(Credentials(jar, schoolId, Ok(response)).jar, "i").value) == Ok(schoolId)
  {
    ParseDecimal(schoolId);
  }

  /** `get_login_url` once the HEAD of the connect URL answered `response`:
      the `location` header on 302, `None` otherwise. */
  function LoginLocation(response: Result<Response>): (r: Result<Option<string>>)
    ensures response.Err? <==> r.Err?
    ensures response.Err? ==> r.error == response.error
    ensures r.Ok? && r.value.Some? ==> response.value.status == Found
    ensures response.Ok? && response.value.status == Found ==> r == Ok(HeaderGet(response.value, "location"))
  {
    match response
    case Err(e) => Err(e)
    case Ok(resp) => if resp.status == Found then Ok(HeaderGet(resp, "location")) else Ok(None)
  }

  /** `get_session_token` once the HEAD of the login URL answered
      `response`: on 200 the response's `sid` cookie is stored (default
      domain and path) and returned, present or not. */
  function Token(jar: Jar, response: Result<Response>): (r: Run)
    ensures response.Err? ==> r == Run(jar, Err(response.error))
    ensures response.Ok? && response.value.status != Ok200 ==> r == Run(jar, Ok(None))
    ensures response.Ok? && response.value.status == Ok200 ==>
      r.jar == SetCookie(jar, "sid", ResponseCookie(response.value, "sid"))
      && r.outcome == Ok(ResponseCookie(response.value, "sid"))
    ensures r.outcome.Ok? && r.outcome.value.Some? ==> GetCookie(r.jar, "sid") == r.outcome.value
  {
    match response
    case Err(e) => Run(jar, Err(e))
    case Ok(resp) =>
      if resp.status == Ok200 then
        var token := ResponseCookie(resp, "sid");
        Run(SetCookie(jar, "sid", token), Ok(token))
      else Run(jar, Ok(None))
  }

  /** Steps two and three on a jar: the login URL, whatever it is, is
      visited next. */
  function ChainFrom(portal: Portal, jar: Jar): (r: Run)
    ensures portal.visit(ConnectUrl, jar).Err? ==> r == Run(jar, Err(portal.visit(ConnectUrl, jar).error))
    ensures r.jar.Keys <= jar.Keys + {"sid"}
    ensures forall n :: n in jar && n != "sid" ==> n in r.jar && r.jar[n] == jar[n]
    ensures r.outcome.Ok? && r.outcome.value.Some? ==> GetCookie(r.jar, "sid") == r.outcome.value
  {
    match LoginLocation(portal.visit(ConnectUrl, jar))
    case Err(e) => Run(jar, Err(e))
    case Ok(url) => Token(jar, VisitUrl(portal, url, jar))
  }

  /** `authenticate`: the three steps in order; only a raised exception stops
      the chain, a `None` from a step does not. */
  function Chain(portal: Portal, jar: Jar, schoolId: int, username: string, password: string): (r: Run)
    ensures var login := portal.login(LoginForm(Decimal(schoolId), username, password));
      (login.Err? ==> r == Run(jar, Err(login.error)))
      && (login.Ok? && login.value.status == Found ==> GetCookie(r.jar, "i") == Some(Decimal(schoolId)))
    ensures r.outcome.Ok? && r.outcome.value.Some? ==> GetCookie(r.jar, "sid") == r.outcome.value
  {
    var first := Credentials(jar, schoolId, portal.login(LoginForm(Decimal(schoolId), username, password)));
    if first.outcome.Err? then first else ChainFrom(portal, first.jar)
  }

  /** Refused credentials do not stop the chain: steps two and three still
      run, on the unchanged jar. */
  lemma RefusedCredentialsContinue(portal: Portal, jar: Jar, schoolId: int, username: string, password: string)
    requires portal.login(LoginForm(Decimal(schoolId), username, password)).Ok?
    requires portal.login(LoginForm(Decimal(schoolId), username, password)).value.status != Found
    ensures Chain(portal, jar, schoolId, username, password) == ChainFrom(portal, jar)
  {
  }

  /** A connect answer that is not a redirect makes step two return `None`,
      and step three then raises TypeError for the `None` URL. */
  lemma NoRedirectIsTypeError(portal: Portal, jar: Jar)
    requires portal.visit(ConnectUrl, jar).Ok? && portal.visit(ConnectUrl, jar).value.status != Found
    ensures ChainFrom(portal, jar) == Run(jar, Err(TypeError))
  {
  }

  /** A token comes back only through a 302 with a `location` and a 200 on
      that location carrying `sid`, and it is then in the jar. */
  lemma TokenTrace(portal: Portal, jar: Jar)
    requires ChainFrom(portal, jar).outcome.Ok? && ChainFrom(portal, jar).outcome.value.Some?
    ensures portal.visit(ConnectUrl, jar).Ok? && portal.visit(ConnectUrl, jar).value.status == Found
    ensures HeaderGet(portal.visit(ConnectUrl, jar).value, "location").Some?
    ensures var url := HeaderGet(portal.visit(ConnectUrl, jar).value, "location").value;
      portal.visit(url, jar).Ok? && portal.visit(url, jar).value.status == Ok200
      && ChainFrom(portal, jar).outcome == Ok(ResponseCookie(portal.visit(url, jar).value, "sid"))
    ensures GetCookie(ChainFrom(portal, jar).jar, "sid") == ChainFrom(portal, jar).outcome.value
  {
  }

  /** The httpx client the functions are handed: it talks to the portal and
      keeps a cookie jar that each step updates in place. */
  class LoginClient {
    const portal: Portal
    var cookies: Jar

    constructor(portal: Portal, cookies: Jar)
      ensures this.portal == portal && this.cookies == cookies
    {
      this.portal := portal;
      this.cookies := cookies;
    }

    method CheckCredentials(schoolId: int, username: string, password: string) returns (r: Result<Option<string>>)
      modifies this
      ensures var run := Credentials(old(cookies), schoolId, portal.login(LoginForm(Decimal(schoolId), username, password)));
        cookies == run.jar && r == run.outcome
    {
      var response := portal.login(LoginForm(Decimal(schoolId), username, password));
      if response.Err? {
        return Err(response.error);
      }
      if response.value.status == Found {
        cookies := SetCookie(cookies, "i", Some(Decimal(schoolId)));
        cookies := SetCookie(cookies, "SPH-Session", ResponseCookie(response.value, "SPH-Session"), ".hessen.de", "/");
        r := Ok(GetCookie(cookies, "SPH-Session"));
      } else {
        r := Ok(None);
      }
    }

    method GetLoginUrl() returns (r: Result<Option<string>>)
      ensures r == LoginLocation(portal.visit(ConnectUrl, cookies))
    {
      var response := portal.visit(ConnectUrl, cookies);
      if response.Err? {
        return Err(response.error);
      }
      if response.value.status == Found {
        r := Ok(HeaderGet(response.value, "location"));
      } else {
        r := Ok(None);
      }
    }

    method GetSessionToken(url: Option<string>) returns (r: Result<Option<string>>)
      modifies this
      ensures var run := Token(old(cookies), VisitUrl(portal, url, old(cookies)));
        cookies == run.jar && r == run.outcome
    {
      var response := VisitUrl(portal, url, cookies);
      if response.Err? {
        return Err(response.error);
      }
      if response.value.status == Ok200 {
        var token := ResponseCookie(response.value, "sid");
        cookies := SetCookie(cookies, "sid", token);
        r := Ok(token);
      } else {
        r := Ok(None);
      }
    }

    method Authenticate(schoolId: int, username: string, password: string) returns (r: Result<Option<string>>)
      modifies this
      ensures var run := Chain(portal, old(cookies), schoolId, username, password);
        cookies == run.jar && r == run.outcome
    {
      var checked := CheckCredentials(schoolId, username, password);
      if checked.Err? {
        return Err(checked.error);
      }
      var url := GetLoginUrl();
      if url.Err? {
        return Err(url.error);
      }
      r := GetSessionToken(url.value);
    }
  }
}
