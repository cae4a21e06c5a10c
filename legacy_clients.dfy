/** The two older clients: `LanisClient` of src/lanisapi/lanisapi.py, which
    keeps an httpx client (`parser`) and its cookie jar, and `LanisClient`
    of src/LanisAPI/LanisAPI.py, which keeps the jar in `auth_cookies`.
    Both log in with the functions of their authentication_functions.py
    (the login answer is used as it is, with no status check, and the final
    jar's `i` is "6091"), and both guard `logout` with a `requires_auth`
    that logs and returns `None` instead of raising. */
module LegacyClients {
  import opened Outcomes
  import opened PyStr
  import opened Http
  import opened LoginSteps
  import opened Wrappers

  /** The login steps of both clients: the session, then (only if it came
      with a `location`) the authentication URL and the final jar. */
  function DataLogin(portal: Portal, school: string, username: string, password: string): (r: Result<Option<Jar>>)
    ensures r.Ok? && r.value.Some? ==>
      r.value.value.Keys == {"i", "sid"} && GetCookie(r.value.value, "i") == Some("6091")
    ensures (GetSessionDirect(portal, school, username, password).Ok?
             && !TruthyText(GetSessionDirect(portal, school, username, password).value.location)) ==> r == Ok(None)
    ensures GetSessionDirect(portal, school, username, password).Err? ==>
      r == Err(GetSessionDirect(portal, school, username, password).error)
  {
    match GetSessionDirect(portal, school, username, password)
    case Err(e) => Err(e)
    case Ok(session) =>
      if !TruthyText(session.location) then Ok(None)
      else
        match GetAuthenticationUrlDirect(portal, session.cookies)
        case Err(e) => Err(e)
        case Ok(url) =>
          match GetAuthenticationData(portal, url, session.cookies)
          case Err(e) => Err(e)
          case Ok(jar) => Ok(Some(jar))
  }

  /** A login that goes through leaves the jar of the final step, whose
      `sid` is cut from the third `;`-field of that step's Set-Cookie
      header, and whose school is "6091" whichever school logged in. */
  lemma DataLoginJar(portal: Portal, school: string, username: string, password: string)
    requires DataLogin(portal, school, username, password).Ok?
    requires DataLogin(portal, school, username, password).value.Some?
    ensures var session := GetSessionDirect(portal, school, username, password).value;
      var url := GetAuthenticationUrlDirect(portal, session.cookies).value;
      var answer := VisitUrl(portal, url, session.cookies).value;
      var sid := SidValue(HeaderGet(answer, "set-cookie"), 2);
      sid.Ok? && DataLogin(portal, school, username, password) == Ok(Some(FinalJar("6091", sid.value)))
  {
  }

  /** `LanisClient` of src/lanisapi/lanisapi.py. */
  class ParserClient {
    const school: string
    const username: string
    const password: string
    const portal: Portal
    var authenticated: bool
    /** `self.parser.cookies`. */
    var cookies: Jar

    constructor(school: string, username: string, password: string, portal: Portal)
      ensures this.school == school && this.username == username && this.password == password
      ensures this.portal == portal
      ensures !authenticated && cookies == map[]
    {
      this.school := school;
      this.username := username;
      this.password := password;
      this.portal := portal;
      authenticated := false;
      cookies := map[];
    }

    /** `close`: the parser is closed and the flag cleared. */
    method Close()
      modifies this
      ensures !authenticated && cookies == old(cookies)
    {
      authenticated := false;
    }

    /** `authenticate`: nothing happens when already authenticated; an
        exception of a step propagates with nothing changed; a login without
        `location` returns early; otherwise the parser's cookies are
        replaced by the final jar and the flag is set. */
    method Authenticate() returns (r: Result<()>)
      modifies this
      ensures old(authenticated) ==> r == Ok(()) && authenticated && cookies == old(cookies)
      ensures !old(authenticated) ==>
        var plan := DataLogin(portal, school, username, password);
        (plan.Err? ==> r == Err(plan.error) && !authenticated && cookies == old(cookies))
        && (plan == Ok(None) ==> r == Ok(()) && !authenticated && cookies == old(cookies))
        && (plan.Ok? && plan.value.Some? ==> r == Ok(()) && authenticated && cookies == plan.value.value)
    {
      if authenticated {
        return Ok(());
      }
      var session := GetSessionDirect(portal, school, username, password);
      if session.Err? {
        return Err(session.error);
      }
      if !TruthyText(session.value.location) {
        return Ok(());
      }
      var url := GetAuthenticationUrlDirect(portal, session.value.cookies);
      if url.Err? {
        return Err(url.error);
      }
      var final := GetAuthenticationData(portal, url.value, session.value.cookies);
      if final.Err? {
        return Err(final.error);
      }
      cookies := final.value;
      authenticated := true;
      r := Ok(());
    }

    /** `logout` under the logging `requires_auth`: the GET of the logout
        URL with the parser's cookies; an exception there propagates and
        leaves the flag set. */
    method Logout() returns (r: Result<Option<()>>)
      modifies this
      ensures cookies == old(cookies)
      ensures !old(authenticated) ==> r == Ok(None) && !authenticated
      ensures old(authenticated) ==>
        var answer := portal.visit(LogoutUrl, old(cookies));
        (answer.Ok? ==> r == Ok(None) && !authenticated)
        && (answer.Err? ==> r == Err(answer.error) && authenticated)
    {
      if !authenticated {
        return LegacyRequiresAuth(authenticated, Ok(None));
      }
      var answer := portal.visit(LogoutUrl, cookies);
      if answer.Err? {
        return Err(answer.error);
      }
      authenticated := false;
      r := Ok(None);
    }
  }

  /** `LanisClient` of src/LanisAPI/LanisAPI.py. `auth_cookies` starts out
      as the `httpx.Cookies` class itself, not a jar: `None` here. */
  class CookieClient {
    const school: string
    const username: string
    const password: string
    const portal: Portal
    var authenticated: bool
    var authCookies: Option<Jar>

    constructor(school: string, username: string, password: string, portal: Portal)
      ensures this.school == school && this.username == username && this.password == password
      ensures this.portal == portal
      ensures !authenticated && authCookies == None
    {
      this.school := school;
      this.username := username;
      this.password := password;
      this.portal := portal;
      authenticated := false;
      authCookies := None;
    }

    /** `authenticate`: as in the parser client, with the final jar stored
        in `auth_cookies`. */
    method Authenticate() returns (r: Result<()>)
      modifies this
      ensures old(authenticated) ==> r == Ok(()) && authenticated && authCookies == old(authCookies)
      ensures !old(authenticated) ==>
        var plan := DataLogin(portal, school, username, password);
        (plan.Err? ==> r == Err(plan.error) && !authenticated && authCookies == old(authCookies))
        && (plan == Ok(None) ==> r == Ok(()) && !authenticated && authCookies == old(authCookies))
        && (plan.Ok? && plan.value.Some? ==> r == Ok(()) && authenticated && authCookies == plan.value)
    {
      if authenticated {
        return Ok(());
      }
      var plan := DataLogin(portal, school, username, password);
      if plan.Err? {
        return Err(plan.error);
      }
      if plan.value.None? {
        return Ok(());
      }
      authCookies := plan.value;
      authenticated := true;
      r := Ok(());
    }

    /** `logout` under the logging `requires_auth`: a GET of the logout URL
        with `auth_cookies` (no cookies while it is still the class). */
    method Logout() returns (r: Result<Option<()>>)
      modifies this
      ensures authCookies == old(authCookies)
      ensures !old(authenticated) ==> r == Ok(None) && !authenticated
      ensures old(authenticated) ==>
        var answer := portal.visit(LogoutUrl, if old(authCookies).Some? then old(authCookies).value else map[]);
        (answer.Ok? ==> r == Ok(None) && !authenticated)
        && (answer.Err? ==> r == Err(answer.error) && authenticated)
    {
      if !authenticated {
        return LegacyRequiresAuth(authenticated, Ok(None));
      }
      var answer := portal.visit(LogoutUrl, if authCookies.Some? then authCookies.value else map[]);
      if answer.Err? {
        return Err(answer.error);
      }
      authenticated := false;
      r := Ok(None);
    }
  }
}
