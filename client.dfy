/** `LanisClient` of src/lanisapi/client.py: the `authenticated` flag,
    the cookie jar of the shared `Request` client, and the `Cryptor`, with
    `authenticate` (the cookie path or the account path, the school
    lookup, the three login steps and the handshake), `close`, `logout`
    and `authentication_cookies`. */
module Client {
  import opened Outcomes
  import opened PyStr
  import opened Http
  import opened JsonAccess
  import opened LoginSteps
  import opened Wrappers
  import C = Cryptor

  /** `LanisAccount.school`: a school id, or a `School` with name and city. */
  datatype SchoolRef = SchoolId(id: string) | SchoolByName(name: string, city: string)

  /** What the client is constructed with: saved cookies (the dataclass
      does not check its fields, so either may be `None`) or an account. */
  datatype Credential =
    | LanisCookie(schoolId: Option<string>, sessionId: Option<string>)
    | LanisAccount(school: SchoolRef, username: string, password: string)

  /** `Request.set_cookies({"i": ..., "sid": ...})`: a plain dict becomes
      cookies on the empty domain and the path "/". */
  function CookieJar(schoolId: Option<string>, sessionId: Option<string>): (r: Jar)
    ensures r.Keys == {"i", "sid"}
    ensures r["i"] == Cookie(schoolId, "", "/") && r["sid"] == Cookie(sessionId, "", "/")
  {
    SetCookie(SetCookie(map[], "i", schoolId), "sid", sessionId)
  }

  /** `authentication_cookies` read from a jar: `i` on the empty domain and
      `sid` on any. */
  function ExportCookies(jar: Jar): (r: Credential)
    ensures r.LanisCookie?
    ensures "i" !in jar ==> r.schoolId == None
    ensures "sid" !in jar ==> r.sessionId == None
  {
    LanisCookie(GetCookie(jar, "i", Some("")), GetCookie(jar, "sid"))
  }

  /** Saved cookies export as themselves, and the jar a login leaves is
      rebuilt exactly from its export: a session can be resumed. */
  lemma ExportRoundTrip(schoolId: Option<string>, sessionId: Option<string>, school: string, sid: string)
    ensures ExportCookies(CookieJar(schoolId, sessionId)) == LanisCookie(schoolId, sessionId)
    ensures var saved := ExportCookies(FinalJar(school, sid));
      CookieJar(saved.schoolId, saved.sessionId) == FinalJar(school, sid)
  {
    var saved := ExportCookies(FinalJar(school, sid));
    assert saved == LanisCookie(Some(school), Some(sid));
    assert CookieJar(Some(school), Some(sid)).Keys == FinalJar(school, sid).Keys;
  }

  /** `school["Name"] == name and school["Ort"] == city` for one entry:
      `Ort` is read only when `Name` matched, and a missing key or an entry
      that is not a dict raises. */
  function SchoolTest(entry: Json, name: string, city: string): (r: Result<bool>)
    ensures r == Ok(true) <==> Index(entry, "Name") == Ok(JString(name)) && Index(entry, "Ort") == Ok(JString(city))
    ensures r.Err? <==> Index(entry, "Name").Err? || (Index(entry, "Name") == Ok(JString(name)) && Index(entry, "Ort").Err?)
    ensures r.Err? ==> r.error in {KeyError, TypeError}
  {
    match Index(entry, "Name")
    case Err(e) => Err(e)
    case Ok(n) =>
      if n != JString(name) then Ok(false)
      else
        match Index(entry, "Ort")
        case Err(e) => Err(e)
        case Ok(c) => Ok(c == JString(city))
  }

  /** `next(school for school in schools if ...)`: the first entry whose
      test holds, after entries whose test was false; `None` (StopIteration)
      exactly when every test is false; otherwise the exception of the first
      test that raised. */
  function FirstEntry(schools: seq<Json>, name: string, city: string): (r: Result<Option<Json>>)
    ensures r.Ok? && r.value.Some? ==>
      exists i :: 0 <= i < |schools| && schools[i] == r.value.value && SchoolTest(schools[i], name, city) == Ok(true)
        && forall k :: 0 <= k < i ==> SchoolTest(schools[k], name, city) == Ok(false)
    ensures r == Ok(None) <==> forall k :: 0 <= k < |schools| ==> SchoolTest(schools[k], name, city) == Ok(false)
    ensures r.Err? ==>
      exists i :: 0 <= i < |schools| && SchoolTest(schools[i], name, city) == Err(r.error)
        && forall k :: 0 <= k < i ==> SchoolTest(schools[k], name, city) == Ok(false)
    decreases |schools|
  {
    if |schools| == 0 then Ok(None)
    else
      match SchoolTest(schools[0], name, city)
      case Err(e) => Err(e)
      case Ok(hit) =>
        if hit then Ok(Some(schools[0]))
        else
          var rest := FirstEntry(schools[1..], name, city);
          assert forall k :: 1 <= k < |schools| ==> schools[k] == schools[1..][k - 1];
          if rest.Ok? && rest.value.Some? then
            var i :| 0 <= i < |schools| - 1 && schools[1..][i] == rest.value.value
                     && SchoolTest(schools[1..][i], name, city) == Ok(true)
                     && forall k :: 0 <= k < i ==> SchoolTest(schools[1..][k], name, city) == Ok(false);
            assert schools[i + 1] == schools[1..][i];
            rest
          else if rest.Err? then
            var i :| 0 <= i < |schools| - 1 && SchoolTest(schools[1..][i], name, city) == Err(rest.error)
                     && forall k :: 0 <= k < i ==> SchoolTest(schools[1..][k], name, city) == Ok(false);
            assert schools[i + 1] == schools[1..][i];
            rest
          else rest
  }

  /** The found entry is determined by its position: an entry whose test
      holds after entries whose tests were false is the one returned. */
  lemma {:induction false} FirstEntryAt(schools: seq<Json>, name: string, city: string, i: nat)
    requires i < |schools| && SchoolTest(schools[i], name, city) == Ok(true)
    requires forall k :: 0 <= k < i ==> SchoolTest(schools[k], name, city) == Ok(false)
    ensures FirstEntry(schools, name, city) == Ok(Some(schools[i]))
  {
    var r := FirstEntry(schools, name, city);
    if r.Ok? && r.value.Some? {
      var j :| 0 <= j < |schools| && schools[j] == r.value.value && SchoolTest(schools[j], name, city) == Ok(true)
               && forall k :: 0 <= k < j ==> SchoolTest(schools[k], name, city) == Ok(false);
      assert j == i;
    }
  }

  /** The school id used as text. */
  function IdText(id: Json): (r: Result<string>)
    ensures id.JString? ==> r == Ok(id.s)
    ensures id.JNumber? ==> r == Ok(Decimal(id.n))
  {
    match id
    case JString(s) => Ok(s)
    case JNumber(n) => Ok(Decimal(n))
    case _ => Err(TypeError)
  }

  /** A wrapped call's `None` seen as JSON null. */
  function NoneIsNull(call: Result<Option<Json>>): (r: Result<Json>)
    ensures call.Err? ==> r == Err(call.error)
    ensures call == Ok(None) ==> r == Ok(JNull)
  {
    match call
    case Err(e) => Err(e)
    case Ok(v) => if v.Some? then Ok(v.value) else Ok(JNull)
  }

  /** `LanisClient.get_schools` calling `_get_schools()`, whose outcome is
      `list`, under `handle_exceptions`; `None` is JSON null. */
  function GetSchools(list: Result<Json>): (r: Result<Json>)
    ensures list != Err(RequestError) ==> r == list
    ensures list == Err(RequestError) ==> r == Ok(JNull)
  {
    NoneIsNull(HandleExceptions(if list.Ok? then Ok(Some(list.value)) else Err(list.error)))
  }

  /** `LanisClient.get_schools` as written: `_get_schools(self.save)` passes
      an argument to a function that takes none, so the call raises
      TypeError before any request, whatever the directory holds. */
  function GetSchoolsAsWritten(list: Result<Json>): (r: Result<Json>)
    ensures r == Err(TypeError)
  {
    NoneIsNull(HandleExceptions<Json>(Err(TypeError)))
  }

  /** As written, a school given by name and city is never found: the
      lookup raises TypeError for every directory. */
  lemma NameLookupAsWrittenFails(list: Result<Json>, name: string, city: string)
    ensures LookupSchool(GetSchoolsAsWritten(list), name, city) == Err(TypeError)
  {
  }

  /** `school["Id"]` of the found entry, as text. */
  function EntryId(entry: Json): (r: Result<string>)
    ensures r.Ok? <==> Index(entry, "Id").Ok? && IdText(Index(entry, "Id").value).Ok?
    ensures r.Ok? ==> r == IdText(Index(entry, "Id").value)
  {
    match Index(entry, "Id")
    case Err(e) => Err(e)
    case Ok(id) => IdText(id)
  }

  /** The id of the school with that name and city in the list
      `get_schools` returned: the `Id` of the first entry the lookup finds,
      `None` (StopIteration) exactly when it finds none, and the exception
      of a directory that cannot be iterated, of a test or of the `Id`
      subscript otherwise. */
  function LookupSchool(schools: Result<Json>, name: string, city: string): (r: Result<Option<string>>)
    ensures schools.Err? ==> r == Err(schools.error)
    ensures schools.Ok? && Elements(schools.value).Err? ==> r == Err(TypeError)
    ensures schools == Ok(JNull) ==> r == Err(TypeError)
    ensures schools.Ok? && Elements(schools.value).Ok? ==>
      var found := FirstEntry(Elements(schools.value).value, name, city);
      (found.Err? ==> r == Err(found.error))
      && (r == Ok(None) <==> found == Ok(None))
      && (found.Ok? && found.value.Some? ==>
            var id := EntryId(found.value.value);
            (id.Err? ==> r == Err(id.error)) && (id.Ok? ==> r == Ok(Some(id.value))))
  {
    match schools
    case Err(e) => Err(e)
    case Ok(json) =>
      match Elements(json)
      case Err(e) => Err(e)
      case Ok(items) =>
        match FirstEntry(items, name, city)
        case Err(e) => Err(e)
        case Ok(found) =>
          if found.None? then Ok(None)
          else
            match EntryId(found.value)
            case Err(e) => Err(e)
            case Ok(text) => Ok(Some(text))
  }

  /** With the call corrected, a directory whose entry `i` is the first to
      match gives that entry's id. */
  lemma LookupFindsFirstMatch(items: seq<Json>, name: string, city: string, i: nat, id: string)
    requires i < |items| && SchoolTest(items[i], name, city) == Ok(true)
    requires forall k :: 0 <= k < i ==> SchoolTest(items[k], name, city) == Ok(false)
    requires Index(items[i], "Id") == Ok(JString(id))
    ensures LookupSchool(GetSchools(Ok(JArray(items))), name, city) == Ok(Some(id))
  {
    FirstEntryAt(items, name, city, i);
  }

  /** With the call corrected, a directory in which no entry matches (and
      every test can be evaluated) makes `authenticate` give up. */
  lemma LookupFindsNothing(items: seq<Json>, name: string, city: string)
    requires forall k :: 0 <= k < |items| ==> SchoolTest(items[k], name, city) == Ok(false)
    ensures LookupSchool(GetSchools(Ok(JArray(items))), name, city) == Ok(None)
  {
  }

  /** With the call corrected, a directory listing the school yields its id. */
  lemma NameLookupFindsListedSchool(name: string, city: string, id: string)
    ensures var entry := JObject(map["Id" := JString(id), "Name" := JString(name), "Ort" := JString(city)]);
      LookupSchool(GetSchools(Ok(JArray([entry]))), name, city) == Ok(Some(id))
  {
    var entry := JObject(map["Id" := JString(id), "Name" := JString(name), "Ort" := JString(city)]);
    assert Index(entry, "Name") == Ok(JString(name));
    assert Index(entry, "Ort") == Ok(JString(city));
    assert FirstEntry([entry], name, city) == Ok(Some(entry));
  }

  /** The school id to log in with, or `None` to give up. */
  function ResolveSchool(school: SchoolRef, list: Result<Json>): (r: Result<Option<string>>)
    ensures school.SchoolId? ==> r == Ok(Some(school.id))
  {
    match school
    case SchoolId(id) => Ok(Some(id))
    case SchoolByName(name, city) => LookupSchool(GetSchools(list), name, city)
  }

  /** The account path's login steps: the session, then (only if it came
      with a `location`) the authentication URL and the final jar. */
  function AccountLogin(portal: Portal, schoolId: string, username: string, password: string): (r: Result<Option<Jar>>)
    ensures r.Ok? && r.value.Some? ==>
      r.value.value.Keys == {"i", "sid"} && GetCookie(r.value.value, "i") == Some(schoolId)
    ensures (GetSession(portal, schoolId, username, password).Ok?
             && !TruthyText(GetSession(portal, schoolId, username, password).value.location)) ==> r == Ok(None)
    ensures GetSession(portal, schoolId, username, password).Err? ==>
      r == Err(GetSession(portal, schoolId, username, password).error)
    ensures var session := GetSession(portal, schoolId, username, password);
      session.Ok? && TruthyText(session.value.location) ==>
        var url := GetAuthenticationUrl(portal, session.value.cookies);
        (url.Err? ==> r == Err(url.error))
        && (url.Ok? ==> var final := GetAuthenticationSid(portal, url.value, session.value.cookies, schoolId);
              (final.Err? ==> r == Err(final.error)) && (final.Ok? ==> r == Ok(Some(final.value))))
  {
    match GetSession(portal, schoolId, username, password)
    case Err(e) => Err(e)
    case Ok(session) =>
      if !TruthyText(session.location) then Ok(None)
      else
        match GetAuthenticationUrl(portal, session.cookies)
        case Err(e) => Err(e)
        case Ok(url) =>
          match GetAuthenticationSid(portal, url, session.cookies, schoolId)
          case Err(e) => Err(e)
          case Ok(jar) => Ok(Some(jar))
  }

  /** A login that goes through leaves the final jar whose `i` is the
      school id and whose `sid` is cut from the third `;`-field of the
      Set-Cookie text of the answer to the URL the connect answer's
      `location` named, none of the three answers being a 404. */
  lemma AccountLoginJar(portal: Portal, schoolId: string, username: string, password: string)
    requires AccountLogin(portal, schoolId, username, password).Ok?
    requires AccountLogin(portal, schoolId, username, password).value.Some?
    ensures var login := portal.login(LoginForm(schoolId, username, password));
      login.Ok? && login.value.status != NotFound
      && var cookies := GetSession(portal, schoolId, username, password).value.cookies;
      var connect := portal.visit(ConnectUrl, cookies);
      connect.Ok? && connect.value.status != NotFound
      && var url := HeaderGet(connect.value, "location");
      var answer := VisitUrl(portal, url, cookies);
      answer.Ok? && answer.value.status != NotFound
      && var sid := SidValue(HeaderGet(answer.value, "set-cookie"), 2);
      sid.Ok? && AccountLogin(portal, schoolId, username, password) == Ok(Some(FinalJar(schoolId, sid.value)))
  {
  }

  /** The jar `authenticate` installs before the handshake, `None` when it
      returns early, or the exception that ends it. */
  function Plan(credential: Credential, portal: Portal, list: Result<Json>): (r: Result<Option<Jar>>)
    ensures credential.LanisCookie? ==> r == Ok(Some(CookieJar(credential.schoolId, credential.sessionId)))
  {
    match credential
    case LanisCookie(schoolId, sessionId) => Ok(Some(CookieJar(schoolId, sessionId)))
    case LanisAccount(school, username, password) =>
      match ResolveSchool(school, list)
      case Err(e) => Err(e)
      case Ok(id) =>
        if id.None? then Ok(None) else AccountLogin(portal, id.value, username, password)
  }

  /** The cookie path makes no request: the plan is the same for any
      portal and any directory. */
  lemma CookiePathIgnoresPortal(credential: Credential, p1: Portal, p2: Portal, l1: Result<Json>, l2: Result<Json>)
    requires credential.LanisCookie?
    ensures Plan(credential, p1, l1) == Plan(credential, p2, l2)
  {
  }

  /** An unknown school ends `authenticate` before any login request. */
  lemma UnknownSchoolStops(name: string, city: string, username: string, password: string, portal: Portal, list: Result<Json>)
    requires LookupSchool(GetSchools(list), name, city) == Ok(None)
    ensures Plan(LanisAccount(SchoolByName(name, city), username, password), portal, list) == Ok(None)
  {
  }

  /** A login answer without a `location` ends `authenticate` with no jar
      installed. */
  lemma MissingLocationStops(school: string, username: string, password: string, portal: Portal, list: Result<Json>)
    requires GetSession(portal, school, username, password).Ok?
    requires !TruthyText(GetSession(portal, school, username, password).value.location)
    ensures Plan(LanisAccount(SchoolId(school), username, password), portal, list) == Ok(None)
  {
  }

  /** `authentication_cookies` as written: `Request.get_cookies` is not
      defined by the `Request` class, so reading the property raises
      AttributeError whatever the jar holds. */
  function AuthenticationCookiesAsWritten(jar: Jar): (r: Result<Credential>)
    ensures r == Err(AttributeError)
  {
    Err(AttributeError)
  }

  /** As written, the cookies of a completed login cannot be exported. */
  lemma ExportAsWrittenFails(school: string, sid: string)
    ensures AuthenticationCookiesAsWritten(FinalJar(school, sid)).Err?
    ensures ExportCookies(FinalJar(school, sid)) == LanisCookie(Some(school), Some(sid))
  {
  }

  class LanisClient {
    const credential: Credential
    const portal: Portal
    const cryptor: C.Cryptor
    var authenticated: bool
    /** The cookies of the shared `Request` client. */
    var jar: Jar

    ghost predicate Valid()
      reads this, cryptor
    {
      cryptor.Valid()
    }

    constructor(credential: Credential, portal: Portal, prims: C.Primitives)
      requires C.Lawful(prims)
      ensures Valid() && fresh(cryptor)
      ensures this.credential == credential && this.portal == portal && cryptor.prims == prims
      ensures !authenticated && jar == map[] && !cryptor.authenticated && cryptor.secret.None?
    {
      this.credential := credential;
      this.portal := portal;
      authenticated := false;
      jar := map[];
      cryptor := new C.Cryptor(prims);
    }

    /** `close`: the shared client is closed and the flag cleared. */
    method Close()
      modifies this
      ensures !authenticated && jar == old(jar)
    {
      authenticated := false;
    }

    /** `authentication_cookies`, reading the shared client's jar. */
    function AuthenticationCookies(): (r: Credential)
      reads this
      ensures r == ExportCookies(jar)
    {
      ExportCookies(jar)
    }

    /** The steps of `authenticate` before the handshake: the saved cookies,
        or the school lookup followed by the three login steps. Nothing is
        changed; the jar to install is returned. */
    method LoginPlan(list: Result<Json>) returns (plan: Result<Option<Jar>>)
      ensures plan == Plan(credential, portal, list)
    {
      match credential {
        case LanisCookie(schoolId, sessionId) =>
          return Ok(Some(CookieJar(schoolId, sessionId)));
        case LanisAccount(school, username, password) =>
          var schoolId: string;
          match school {
            case SchoolId(id) =>
              schoolId := id;
            case SchoolByName(name, city) =>
              var found := LookupSchool(GetSchools(list), name, city);
              if found.Err? {
                return Err(found.error);
              }
              if found.value.None? {
                return Ok(None);
              }
              schoolId := found.value.value;
          }
          var session := GetSession(portal, schoolId, username, password);
          if session.Err? {
            return Err(session.error);
          }
          if !TruthyText(session.value.location) {
            return Ok(None);
          }
          var url := GetAuthenticationUrl(portal, session.value.cookies);
          if url.Err? {
            return Err(url.error);
          }
          var final := GetAuthenticationSid(portal, url.value, session.value.cookies, schoolId);
          if final.Err? {
            return Err(final.error);
          }
          return Ok(Some(final.value));
      }
    }

    /** `authenticate` under `handle_exceptions`. `list` is the outcome of
        `_get_schools()`; `draw`, `keySalt`, `publicKey` and `server` feed
        the cryptor's handshake. Nothing happens when already
        authenticated; the jar is replaced as soon as the login steps (or
        the saved cookies) provide one, and the flag is set only when the
        handshake then succeeds. */
    method Authenticate(list: Result<Json>, draw: nat -> C.RandomValue, keySalt: seq<Byte>, publicKey: seq<Byte>,
                        server: seq<Byte> -> Result<seq<Byte>>) returns (r: Result<Option<()>>)
      requires Valid() && |keySalt| == 8
      modifies this, cryptor
      ensures Valid()
      ensures old(authenticated) ==> r == Ok(None) && authenticated && jar == old(jar) && unchanged(cryptor)
      ensures !old(authenticated) ==>
        var plan := Plan(credential, portal, list);
        (plan.Err? ==> r == HandleExceptions<()>(Err(plan.error)) && !authenticated && jar == old(jar) && unchanged(cryptor))
        && (plan == Ok(None) ==> r == Ok(None) && !authenticated && jar == old(jar) && unchanged(cryptor))
        && (plan.Ok? && plan.value.Some? ==>
              var h := C.HandshakeOutcome(cryptor.prims, draw, keySalt, publicKey, server);
              var answer := server(C.EncryptedKey(cryptor.prims, publicKey, C.GeneratedSecret(cryptor.prims, draw, keySalt)));
              jar == plan.value.value && authenticated == (h == Ok(true))
              && r == (if h.Err? then HandleExceptions<()>(Err(h.error)) else Ok(None))
              && cryptor.secret == Some(C.GeneratedSecret(cryptor.prims, draw, keySalt))
              && cryptor.authenticated == (if answer.Err? then old(cryptor.authenticated) else h != Ok(false)))
    {
      if authenticated {
        return Ok(None);
      }
      var plan := LoginPlan(list);
      if plan.Err? {
        return HandleExceptions(Err(plan.error));
      }
      if plan.value.None? {
        return Ok(None);
      }
      jar := plan.value.value;
      var handshake := cryptor.Authenticate(draw, keySalt, publicKey, server);
      if handshake.Err? {
        return HandleExceptions(Err(handshake.error));
      }
      if !handshake.value {
        return Ok(None);
      }
      authenticated := true;
      r := Ok(None);
    }

    /** `logout` under `requires_auth` and `handle_exceptions`: the POST of
        `logout=all` through the `Request` helper; the flag is cleared only
        when it went through. */
    method Logout() returns (r: Result<Option<()>>)
      modifies this
      ensures jar == old(jar)
      ensures !old(authenticated) ==> r == Err(NotAuthenticatedError) && !authenticated
      ensures old(authenticated) ==>
        var answer := ViaRequest(portal.logout(old(jar)));
        (answer.Ok? ==> r == Ok(None) && !authenticated)
        && (answer.Err? ==> r == HandleExceptions<()>(Err(answer.error)) && authenticated)
    {
      if !authenticated {
        return RequiresAuth(authenticated, Ok(None));
      }
      var answer := ViaRequest(portal.logout(jar));
      if answer.Err? {
        return HandleExceptions(Err(answer.error));
      }
      authenticated := false;
      r := Ok(None);
    }
  }
}
