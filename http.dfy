/** The HTTP vocabulary of the login code: cookies and cookie jars as
    `httpx.Cookies` holds them, responses reduced to what the code reads
    (status, headers, cookies), the login form, and the portal itself as a
    set of functions from requests to responses. */
module Http {
  import opened Outcomes
  import opened PyStr

  const LoginUrl: string := "https://login.schulportal.hessen.de/"
  const ConnectUrl: string := "https://connect.schulportal.hessen.de/"
  const BaseUrl: string := "https://start.schulportal.hessen.de/"
  const IndexUrl: string := "https://start.schulportal.hessen.de/index.php"
  const LogoutUrl: string := "https://start.schulportal.hessen.de/index.php?logout=all"

  const Found := 302
  const Ok200 := 200
  const NotFound := 404

  /** One cookie of a jar; the value is `None` when the code stored `None`. */
  datatype Cookie = Cookie(value: Option<string>, domain: string, path: string)

  /** A cookie jar, one cookie per name. */
  type Jar = map<string, Cookie>

  /** `cookies.set(name, value, domain, path)`; httpx's defaults are the
      empty domain and the path "/". */
  function SetCookie(jar: Jar, name: string, value: Option<string>, domain: string := "", path: string := "/"): (r: Jar)
    ensures r.Keys == jar.Keys + {name}
    ensures r[name] == Cookie(value, domain, path)
    ensures forall n :: n in jar && n != name ==> r[n] == jar[n]
  {
    jar[name := Cookie(value, domain, path)]
  }

  /** `cookies.get(name)` when `domain` is `None`, `cookies.get(name,
      domain=d)` otherwise: the value of the cookie of that name, provided its
      domain is `d`; `None` when there is no such cookie. */
  function GetCookie(jar: Jar, name: string, domain: Option<string> := None): (r: Option<string>)
    ensures r.Some? ==> name in jar && jar[name].value == r
    ensures name !in jar ==> r == None
    ensures name in jar && (domain.None? || jar[name].domain == domain.value) ==> r == jar[name].value
  {
    if name in jar && (domain.None? || jar[name].domain == domain.value) then jar[name].value else None
  }

  /** A dictionary of strings given to a client as its cookies: every cookie
      gets the empty domain and the path "/". */
  function JarOf(values: map<string, string>): (r: Jar)
    ensures r.Keys == values.Keys
    ensures forall n :: n in values ==> r[n] == Cookie(Some(values[n]), "", "/")
  {
    map n | n in values :: Cookie(Some(values[n]), "", "/")
  }

  /** What the code reads of an HTTP response: the status, each header's
      values under its lower-case name, in order, and the cookies the
      response set, by name. */
  datatype Response = Response(status: int, headers: map<string, seq<string>>, cookies: map<string, string>)

  /** `response.headers.get(name)`: several values of one header are joined
      with ", "; an absent header gives `None`. */
  function HeaderGet(r: Response, name: string): (v: Option<string>)
    ensures v.None? <==> name !in r.headers || r.headers[name] == []
    ensures name in r.headers && |r.headers[name]| == 1 ==> v == Some(r.headers[name][0])
  {
    if name in r.headers && r.headers[name] != [] then Some(Join(r.headers[name], ", ")) else None
  }

  /** Two Set-Cookie headers read as one string. */
  lemma TwoHeaderValues(r: Response, name: string, first: string, second: string)
    requires name in r.headers && r.headers[name] == [first, second]
    ensures HeaderGet(r, name) == Some(first + ", " + second)
  {
    assert [first, second][1..] == [second];
    assert Join([second], ", ") == second;
    assert Join([first, second], ", ") == first + ", " + second;
  }

  /** `response.cookies.get(name)`. */
  function ResponseCookie(r: Response, name: string): (v: Option<string>)
    ensures v.Some? <==> name in r.cookies
    ensures v.Some? ==> v.value == r.cookies[name]
  {
    if name in r.cookies then Some(r.cookies[name]) else None
  }

  /** The login POST: query parameter `i`, and the form fields `user2`,
      `user` and `password`. */
  datatype LoginRequest = LoginRequest(i: string, user2: string, user: string, password: string)

  /** The login request for a school id and an account: `user` is
      "{school}.{username}". */
  function LoginForm(school: string, username: string, password: string): (r: LoginRequest)
    ensures r.i == school && r.user2 == username && r.password == password
    ensures |r.user| == |school| + 1 + |username|
    ensures r.user[..|school|] == school && r.user[|school|] == '.' && r.user[|school| + 1..] == username
  {
    LoginRequest(school, username, school + "." + username, password)
  }

  /** A school id without a dot is the first dot-separated field of `user`,
      so the portal can take the user field apart again. */
  lemma LoginUserSplits(school: string, username: string, password: string)
    requires '.' !in school
    ensures Split(LoginForm(school, username, password).user, ".")[0] == school
  {
    ContainsChar(school, '.');
    SplitCons(school, ".", username);
  }

  /** The portal as far as the login code talks to it: the answer to the
      login POST, to any other request of a URL with a cookie jar (a GET, a
      HEAD, or the POST that the `Request` helper's `get` sends), and to the
      POST of `logout=all` to the index page. A request that fails in
      transport is `Err(RequestError)`. */
  datatype Portal = Portal(
    login: LoginRequest -> Result<Response>,
    visit: (string, Jar) -> Result<Response>,
    logout: Jar -> Result<Response>)

  /** The `Request` helper's view of a response: a 404 raises
      PageNotFoundError. */
  function ViaRequest(r: Result<Response>): (v: Result<Response>)
    ensures r.Ok? && r.value.status == NotFound ==> v == Err(PageNotFoundError)
    ensures r.Ok? && r.value.status != NotFound ==> v == r
    ensures r.Err? ==> v == r
  {
    if r.Ok? && r.value.status == NotFound then Err(PageNotFoundError) else r
  }

  /** A response the code reads as JSON: its status, whether the response
      object counts as true in an `if not response` test, and the decoded
      body. */
  datatype JsonResponse = JsonResponse(status: int, truthy: bool, body: Json)

  /** `ViaRequest` for a JSON response. */
  function ViaRequestJson(r: Result<JsonResponse>): (v: Result<JsonResponse>)
    ensures r.Ok? && r.value.status == NotFound ==> v == Err(PageNotFoundError)
    ensures r.Ok? && r.value.status != NotFound ==> v == r
    ensures r.Err? ==> v == r
  {
    if r.Ok? && r.value.status == NotFound then Err(PageNotFoundError) else r
  }

  /** A visit to a URL that may be `None`: httpx raises TypeError for it. */
  function VisitUrl(portal: Portal, url: Option<string>, jar: Jar): (r: Result<Response>)
    ensures url.None? ==> r == Err(TypeError)
    ensures url.Some? ==> r == portal.visit(url.value, jar)
  {
    if url.None? then Err(TypeError) else portal.visit(url.value, jar)
  }
}
