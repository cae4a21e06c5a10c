/** The login steps that take cookie values apart by position: the
    `SPH-Session` value of the login response and the `sid` value of the
    final response are cut out of the raw `Set-Cookie` header with
    `str.split` and list indexing, and the cookie jars handed to the next
    step are built from them. Four variants share these steps:
    src/lanisapi/helpers/authentication.py, src/lanisapi/authentication_functions.py,
    src/LanisAPI/authentication_functions.py and
    src/lanisapi/core/initialization/authenticate.py. */
module LoginSteps {
  import opened Outcomes
  import opened PyStr
  import opened Http

  /** `header.split(";")[0].split("=")[1]`: the text after the first `=` of
      the first `;`-field, up to the next `=`. An absent header raises
      AttributeError (`None.split`), a field without `=` IndexError. */
  function SessionValue(header: Option<string>): (r: Result<string>)
    ensures header.None? ==> r == Err(AttributeError)
    ensures r.Err? ==> r.error in {AttributeError, IndexError}
  {
    if header.None? then Err(AttributeError)
    else Item(Split(Split(header.value, ";")[0], "="), 1)
  }

  /** `header.split(";")[field].split(", ")[1].split("=")[1]`. */
  function SidValue(header: Option<string>, field: nat): (r: Result<string>)
    ensures header.None? ==> r == Err(AttributeError)
    ensures r.Err? ==> r.error in {AttributeError, IndexError}
  {
    if header.None? then Err(AttributeError)
    else
      match Item(Split(header.value, ";"), field)
      case Err(e) => Err(e)
      case Ok(part) =>
        match Item(Split(part, ", "), 1)
        case Err(e) => Err(e)
        case Ok(pair) => Item(Split(pair, "="), 1)
  }

  /** The session value exists exactly when the first `;`-field holds a `=`. */
  lemma SessionValueDefined(header: string)
    ensures SessionValue(Some(header)).Ok? <==> '=' in Split(header, ";")[0]
  {
    SplitMany(Split(header, ";")[0], "=");
    ContainsChar(Split(header, ";")[0], '=');
  }

  /** The first `;`-field of `a + rest`, when `a` has no `;` and `rest` is
      empty or starts a new field. */
  lemma FirstField(a: string, rest: string)
    requires ';' !in a && (rest == [] || rest[0] == ';')
    ensures Split(a + rest, ";")[0] == a
  {
    ContainsChar(a, ';');
    if rest == [] {
      assert a + rest == a;
      SplitNoSep(a, ";");
    } else {
      assert a + rest == a + ";" + rest[1..];
      SplitCons(a, ";", rest[1..]);
    }
  }

  lemma SessionValueAt(header: string, first: string)
    requires Split(header, ";")[0] == first
    ensures SessionValue(Some(header)) == Item(Split(first, "="), 1)
  {
  }

  /** For a header `name=value` followed by attributes, the extracted value
      is `value` cut at its first `=`; so it is `value` itself when that
      holds no `=`. */
  lemma SessionValueOf(name: string, value: string, rest: string)
    requires '=' !in name && ';' !in name && ';' !in value
    requires rest == [] || rest[0] == ';'
    ensures SessionValue(Some(name + "=" + value + rest)) == Ok(Split(value, "=")[0])
    ensures '=' !in value ==> SessionValue(Some(name + "=" + value + rest)) == Ok(value)
  {
    var pair := name + "=" + value;
    var header := name + "=" + value + rest;
    FirstField(pair, rest);
    SessionValueAt(header, pair);
    ContainsChar(name, '=');
    SplitCons(name, "=", value);
    if '=' !in value {
      ContainsChar(value, '=');
      SplitNoSep(value, "=");
    }
  }

  /** The portal's login answer "SPH-Session=abc123; Domain=.x" yields "abc123". */
  lemma SessionValueExample()
    ensures SessionValue(Some("SPH-Session=abc123; Domain=.x")) == Ok("abc123")
  {
    assert "SPH-Session=abc123; Domain=.x" == "SPH-Session" + "=" + "abc123" + "; Domain=.x";
    SessionValueOf("SPH-Session", "abc123", "; Domain=.x");
  }

  /** A value that itself holds `=` is cut there: only `head` is kept. */
  lemma SessionValueCut(name: string, head: string, tail: string, rest: string)
    requires '=' !in name && ';' !in name && '=' !in head && ';' !in head && ';' !in tail
    requires rest == [] || rest[0] == ';'
    ensures SessionValue(Some(name + "=" + head + "=" + tail + rest)) == Ok(head)
  {
    assert name + "=" + head + "=" + tail + rest == name + "=" + (head + "=" + tail) + rest;
    SessionValueOf(name, head + "=" + tail, rest);
    ContainsChar(head, '=');
    SplitCons(head, "=", tail);
  }

  /** The value part of `name=value`, cut at the next `=`. */
  lemma PairValue(name: string, value: string)
    requires '=' !in name
    ensures Item(Split(name + "=" + value, "="), 1) == Ok(Split(value, "=")[0])
  {
    ContainsChar(name, '=');
    SplitCons(name, "=", value);
  }

  /** The extraction once the `field`-th `;`-field is known to hold a
      second ", "-field `name=value`. */
  lemma SidValueFrom(header: string, field: nat, part: string, name: string, value: string)
    requires '=' !in name
    requires field < |Split(header, ";")| && Split(header, ";")[field] == part
    requires |Split(part, ", ")| >= 2 && Split(part, ", ")[1] == name + "=" + value
    ensures SidValue(Some(header), field) == Ok(Split(value, "=")[0])
  {
    PairValue(name, value);
  }

  /** The extraction fails when the `field`-th `;`-field holds no ", ". */
  lemma SidValueMissing(header: string, field: nat, part: string)
    requires field < |Split(header, ";")| && Split(header, ";")[field] == part
    requires ',' !in part
    ensures SidValue(Some(header), field) == Err(IndexError)
  {
    LacksCharOf(part, ", ", 0);
    SplitNoSep(part, ", ");
  }

  /** The `;`-field after `before`'s fields is the text up to the next `;`. */
  lemma FieldAfter(before: seq<string>, field: string, rest: string)
    requires |before| >= 1 && forall i :: 0 <= i < |before| ==> ';' !in before[i]
    requires ';' !in field && (rest == [] || rest[0] == ';')
    ensures |before| < |Split(Join(before, ";") + ";" + field + rest, ";")|
    ensures Split(Join(before, ";") + ";" + field + rest, ";")[|before|] == field
  {
    var header := Join(before, ";") + ";" + field + rest;
    assert header == Join(before, [';']) + [';'] + (field + rest);
    SplitAfterFields(before, ';', field + rest);
    FirstField(field, rest);
  }

  /** The second ", "-field of `last, pair`. */
  lemma SecondCookie(last: string, pair: string)
    requires ',' !in last && ',' !in pair
    ensures |Split(last + ", " + pair, ", ")| >= 2 && Split(last + ", " + pair, ", ")[1] == pair
  {
    LacksCharOf(last, ", ", 0);
    SplitCons(last, ", ", pair);
    LacksCharOf(pair, ", ", 0);
    SplitNoSep(pair, ", ");
  }

  /** The `sid` value: when the header (the Set-Cookie values joined by
      ", ") has `field` complete `;`-fields before the one in which an
      earlier cookie's last attribute `last` is followed by ", " and
      `name=value`, the extraction yields `value` cut at its first `=`. */
  lemma SidValueOf(before: seq<string>, last: string, name: string, value: string, rest: string)
    requires |before| >= 1 && forall i :: 0 <= i < |before| ==> ';' !in before[i]
    requires ';' !in last && ',' !in last
    requires '=' !in name && ';' !in name && ',' !in name
    requires ';' !in value && ',' !in value
    requires rest == [] || rest[0] == ';'
    ensures SidValue(Some(Join(before, ";") + ";" + last + ", " + name + "=" + value + rest), |before|)
            == Ok(Split(value, "=")[0])
  {
    var pair := name + "=" + value;
    var field := last + ", " + pair;
    var header := Join(before, ";") + ";" + last + ", " + name + "=" + value + rest;
    assert header == Join(before, ";") + ";" + field + rest;
    FieldAfter(before, field, rest);
    SecondCookie(last, pair);
    SidValueFrom(header, |before|, field, name, value);
  }

  /** A `;`-field right after the first that holds no ", " makes the
      extraction at that field fail. */
  lemma SidSecondFieldFails(first: string, part: string, rest: string)
    requires ';' !in first && ';' !in part && ',' !in part && (rest == [] || rest[0] == ';')
    ensures SidValue(Some(first + ";" + part + rest), 1) == Err(IndexError)
  {
    assert Join([first], ";") == first;
    FieldAfter([first], part, rest);
    SidValueMissing(first + ";" + part + rest, 1, part);
  }

  /** A login answer whose first Set-Cookie header has two `;`-fields
      (`SPH-Session=...; path=/`) before the one that ends it and starts the
      `sid` cookie: reading field 2 finds the `sid` value, reading field 1
      fails with IndexError. */
  lemma SidFieldChoice(first: string, attr: string, last: string, name: string, value: string, rest: string)
    requires ';' !in first && ';' !in attr && ',' !in attr
    requires ';' !in last && ',' !in last
    requires '=' !in name && ';' !in name && ',' !in name
    requires ';' !in value && ',' !in value && '=' !in value
    requires rest == [] || rest[0] == ';'
    ensures SidValue(Some(first + ";" + attr + ";" + last + ", " + name + "=" + value + rest), 2) == Ok(value)
    ensures SidValue(Some(first + ";" + attr + ";" + last + ", " + name + "=" + value + rest), 1) == Err(IndexError)
  {
    var before := [first, attr];
    var header := first + ";" + attr + ";" + last + ", " + name + "=" + value + rest;
    assert Join(before, ";") == first + ";" + attr by {
      JoinCons(first, [attr], ";");
      assert before == [first] + [attr];
    }
    assert header == Join(before, ";") + ";" + last + ", " + name + "=" + value + rest;
    SidValueOf(before, last, name, value, rest);
    ContainsChar(value, '=');
    SplitNoSep(value, "=");
    assert header == first + ";" + attr + (";" + last + ", " + name + "=" + value + rest);
    SidSecondFieldFails(first, attr, ";" + last + ", " + name + "=" + value + rest);
  }

  /** The cookies and the next location `get_session` hands on. */
  datatype Session = Session(cookies: Jar, location: Option<string>)

  /** The interim jar: `SPH-Session` alone, scoped to ".hessen.de" and "/". */
  function InterimJar(value: string): (r: Jar)
    ensures r.Keys == {"SPH-Session"}
    ensures r["SPH-Session"] == Cookie(Some(value), ".hessen.de", "/")
  {
    SetCookie(map[], "SPH-Session", Some(value), ".hessen.de", "/")
  }

  /** What `get_session` makes of the login response: the interim jar, and
      the `location` header passed on unchanged, present or not and whatever
      the status. */
  function SessionFrom(response: Result<Response>): (r: Result<Session>)
    ensures response.Err? ==> r == Err(response.error)
    ensures response.Ok? ==>
      var value := SessionValue(HeaderGet(response.value, "set-cookie"));
      (r.Ok? <==> value.Ok?) && (value.Err? ==> r == Err(value.error)) &&
      (r.Ok? ==> r.value.cookies == InterimJar(value.value)
                 && r.value.location == HeaderGet(response.value, "location"))
  {
    match response
    case Err(e) => Err(e)
    case Ok(resp) =>
      match SessionValue(HeaderGet(resp, "set-cookie"))
      case Err(e) => Err(e)
      case Ok(v) => Ok(Session(InterimJar(v), HeaderGet(resp, "location")))
  }

  /** `get_session` of src/lanisapi/helpers/authentication.py, through the
      `Request` helper: a 404 answer raises PageNotFoundError; any other
      answer yields the interim jar of its session value and its `location`
      header, whatever the status; a field missing from the Set-Cookie text
      and a transport error are raised. */
  function GetSession(portal: Portal, school: string, username: string, password: string): (r: Result<Session>)
    ensures var answer := portal.login(LoginForm(school, username, password));
      (answer.Err? ==> r == Err(answer.error))
      && (answer.Ok? && answer.value.status == NotFound ==> r == Err(PageNotFoundError))
      && (answer.Ok? && answer.value.status != NotFound ==>
            var value := SessionValue(HeaderGet(answer.value, "set-cookie"));
            (r.Ok? <==> value.Ok?) && (value.Err? ==> r == Err(value.error))
            && (r.Ok? ==> r.value.cookies == InterimJar(value.value)
                          && r.value.location == HeaderGet(answer.value, "location")))
  {
    SessionFrom(ViaRequest(portal.login(LoginForm(school, username, password))))
  }

  /** `get_session` of the variants that post with their own client
      (both authentication_functions.py files and core/initialization):
      every answer, a 404 included, yields the interim jar and the
      `location` header. */
  function GetSessionDirect(portal: Portal, school: string, username: string, password: string): (r: Result<Session>)
    ensures var answer := portal.login(LoginForm(school, username, password));
      (answer.Err? ==> r == Err(answer.error))
      && (answer.Ok? ==>
            var value := SessionValue(HeaderGet(answer.value, "set-cookie"));
            (r.Ok? <==> value.Ok?) && (value.Err? ==> r == Err(value.error))
            && (r.Ok? ==> r.value.cookies == InterimJar(value.value)
                          && r.value.location == HeaderGet(answer.value, "location")))
  {
    SessionFrom(portal.login(LoginForm(school, username, password)))
  }

  /** The two `get_session`s differ only on a 404 answer, which the
      `Request` helper raises and the direct post reads like any other. */
  lemma SessionVariantsAgree(portal: Portal, school: string, username: string, password: string)
    ensures var answer := portal.login(LoginForm(school, username, password));
      (answer.Err? || answer.value.status != NotFound) <==>
      GetSession(portal, school, username, password) == GetSessionDirect(portal, school, username, password)
  {
    var answer := portal.login(LoginForm(school, username, password));
    if answer.Ok? && answer.value.status == NotFound {
      assert SessionFrom(answer) != Err(PageNotFoundError);
    }
  }

  /** `get_authentication_url`: exactly the `location` header of the answer
      from connect.schulportal.hessen.de. */
  function AuthenticationUrlFrom(response: Result<Response>): (r: Result<Option<string>>)
    ensures response.Err? <==> r.Err?
    ensures response.Err? ==> r.error == response.error
    ensures response.Ok? ==> r.value == HeaderGet(response.value, "location")
  {
    match response
    case Err(e) => Err(e)
    case Ok(resp) => Ok(HeaderGet(resp, "location"))
  }

  /** `get_authentication_url` of src/lanisapi/helpers/authentication.py,
      through the `Request` helper: the `location` header of the connect
      answer, PageNotFoundError for a 404, a transport error raised. */
  function GetAuthenticationUrl(portal: Portal, jar: Jar): (r: Result<Option<string>>)
    ensures var answer := portal.visit(ConnectUrl, jar);
      (answer.Err? ==> r == Err(answer.error))
      && (answer.Ok? && answer.value.status == NotFound ==> r == Err(PageNotFoundError))
      && (answer.Ok? && answer.value.status != NotFound ==> r == Ok(HeaderGet(answer.value, "location")))
  {
    AuthenticationUrlFrom(ViaRequest(portal.visit(ConnectUrl, jar)))
  }

  /** `get_authentication_url` of the variants with their own client: the
      `location` header of every connect answer, a 404 included. */
  function GetAuthenticationUrlDirect(portal: Portal, jar: Jar): (r: Result<Option<string>>)
    ensures var answer := portal.visit(ConnectUrl, jar);
      (answer.Err? ==> r == Err(answer.error))
      && (answer.Ok? ==> r == Ok(HeaderGet(answer.value, "location")))
  {
    AuthenticationUrlFrom(portal.visit(ConnectUrl, jar))
  }

  /** The two `get_authentication_url`s differ exactly on a 404 answer. */
  lemma UrlVariantsAgree(portal: Portal, jar: Jar)
    ensures var answer := portal.visit(ConnectUrl, jar);
      (answer.Err? || answer.value.status != NotFound) <==>
      GetAuthenticationUrl(portal, jar) == GetAuthenticationUrlDirect(portal, jar)
  {
  }

  /** The final jar: a fresh jar holding `i` and `sid`, on the empty domain
      and path "/", and nothing else. */
  function FinalJar(school: string, sid: string): (r: Jar)
    ensures r.Keys == {"i", "sid"}
    ensures r["i"] == Cookie(Some(school), "", "/") && r["sid"] == Cookie(Some(sid), "", "/")
  {
    SetCookie(SetCookie(map[], "i", Some(school)), "sid", Some(sid))
  }

  /** What the final step makes of its response: `i` is `school`, `sid`
      is cut from the Set-Cookie header's `field`-th `;`-field. */
  function FinalCookiesFrom(response: Result<Response>, school: string, field: nat): (r: Result<Jar>)
    ensures response.Err? ==> r == Err(response.error)
    ensures response.Ok? ==>
      var sid := SidValue(HeaderGet(response.value, "set-cookie"), field);
      (r.Ok? <==> sid.Ok?) && (sid.Err? ==> r == Err(sid.error)) &&
      (r.Ok? ==> r.value == FinalJar(school, sid.value))
  {
    match response
    case Err(e) => Err(e)
    case Ok(resp) =>
      match SidValue(HeaderGet(resp, "set-cookie"), field)
      case Err(e) => Err(e)
      case Ok(sid) => Ok(FinalJar(school, sid))
  }

  /** `get_authentication_sid` (helpers/authentication.py): `i` is the
      caller's school id, `sid` comes from the third `;`-field. */
  function GetAuthenticationSid(portal: Portal, url: Option<string>, jar: Jar, school: string): (r: Result<Jar>)
    ensures url.None? ==> r == Err(TypeError)
    ensures r.Ok? ==> GetCookie(r.value, "i") == Some(school)
    ensures r == FinalCookiesFrom(ViaRequest(VisitUrl(portal, url, jar)), school, 2)
  {
    FinalCookiesFrom(ViaRequest(VisitUrl(portal, url, jar)), school, 2)
  }

  /** `get_authentication_data` of both authentication_functions.py files:
      `i` is "6091" whatever school logged in. */
  function GetAuthenticationData(portal: Portal, url: Option<string>, jar: Jar): (r: Result<Jar>)
    ensures url.None? ==> r == Err(TypeError)
    ensures r.Ok? ==> GetCookie(r.value, "i") == Some("6091")
    ensures r == FinalCookiesFrom(VisitUrl(portal, url, jar), "6091", 2)
  {
    FinalCookiesFrom(VisitUrl(portal, url, jar), "6091", 2)
  }

  /** `get_authentication_cookies` of core/initialization: `i` is the
      school id, `sid` comes from the second `;`-field. */
  function GetAuthenticationCookies(portal: Portal, url: Option<string>, jar: Jar, school: string): (r: Result<Jar>)
    ensures url.None? ==> r == Err(TypeError)
    ensures r.Ok? ==> GetCookie(r.value, "i") == Some(school)
    ensures r == FinalCookiesFrom(VisitUrl(portal, url, jar), school, 1)
  {
    FinalCookiesFrom(VisitUrl(portal, url, jar), school, 1)
  }
}
