/** The applets (modules) of the start page: src/lanisapi/applets.py and
    its variants under lanisapi/ (the three `parse_applets` are the same
    loop, and the two newer `get_applet_availability` are the same search),
    and the apps of src/lanisapi/core/helper/apps.py. The link resolution
    of `urllib.parse.urljoin` for two non-empty strings is the parameter
    `join`; its handling of an empty or non-string second argument is
    modelled. */
module Applets {
  import opened Outcomes
  import opened PyStr
  import opened Http
  import opened JsonAccess

  /** `Applet(name, link, color)`; name and color are copied from the
      entry as they are. */
  datatype Applet = Applet(name: Json, link: string, color: Json)

  /** `App(name, link)` of core/helper/apps.py. */
  datatype App = App(name: Json, link: string)

  /** `urljoin(base, value)` for a non-empty `base`: a falsy `value` gives
      `base`, a non-empty string is resolved against it, and any other
      value raises TypeError (str and non-str mixed). */
  function UrlJoin(join: (string, string) -> string, base: string, value: Json): (r: Result<string>)
    requires base != ""
    ensures r.Ok? <==> Falsy(value) || value.JString?
    ensures r.Err? ==> r.error == TypeError
    ensures Falsy(value) ==> r == Ok(base)
    ensures value.JString? && value.s != "" ==> r == Ok(join(base, value.s))
  {
    if Falsy(value) then Ok(base)
    else if value.JString? then Ok(join(base, value.s))
    else Err(TypeError)
  }

  /** One entry as the loop body of `parse_applets` reads it: `Name`, then
      `link` (resolved against the start page), then `Farbe`. */
  function AppletOf(join: (string, string) -> string, entry: Json): (r: Result<Applet>)
    ensures r.Ok? <==>
      entry.JObject? && "Name" in entry.fields && "link" in entry.fields && "Farbe" in entry.fields
      && UrlJoin(join, BaseUrl, entry.fields["link"]).Ok?
    ensures r.Ok? ==>
      r.value.name == entry.fields["Name"] && r.value.color == entry.fields["Farbe"]
      && Ok(r.value.link) == UrlJoin(join, BaseUrl, entry.fields["link"])
  {
    match Index(entry, "Name")
    case Err(e) => Err(e)
    case Ok(name) =>
      match Index(entry, "link")
      case Err(e) => Err(e)
      case Ok(target) =>
        match UrlJoin(join, BaseUrl, target)
        case Err(e) => Err(e)
        case Ok(link) =>
          match Index(entry, "Farbe")
          case Err(e) => Err(e)
          case Ok(color) => Ok(Applet(name, link, color))
  }

  /** What `parse_applets(json)` returns or raises: one applet per entry, in
      order, or the exception of the first entry that cannot be read. */
  function ParsedApplets(join: (string, string) -> string, json: Json): (r: Result<seq<Applet>>)
    ensures r.Ok? ==>
      Elements(json).Ok? && |r.value| == |Elements(json).value|
      && forall i :: 0 <= i < |r.value| ==> Ok(r.value[i]) == AppletOf(join, Elements(json).value[i])
    ensures Elements(json).Ok? && (forall i :: 0 <= i < |Elements(json).value| ==> AppletOf(join, Elements(json).value[i]).Ok?)
            ==> r.Ok?
  {
    match Elements(json)
    case Err(e) => Err(e)
    case Ok(items) => MapAll(items, (entry: Json) => AppletOf(join, entry))
  }

  /** `parse_applets`: the append loop. */
  method ParseApplets(join: (string, string) -> string, json: Json) returns (r: Result<seq<Applet>>)
    ensures r == ParsedApplets(join, json)
  {
    var entries := Elements(json);
    if entries.Err? {
      return Err(entries.error);
    }
    var items := entries.value;
    var f := (entry: Json) => AppletOf(join, entry);
    var applets: seq<Applet> := [];
    var i := 0;
    while i < |items|
      invariant 0 <= i <= |items|
      invariant |applets| == i
      invariant forall k :: 0 <= k < i ==> f(items[k]).Ok? && applets[k] == f(items[k]).value
    {
      var applet := AppletOf(join, items[i]);
      if applet.Err? {
        MapAllFirstError(items, f, i);
        return Err(applet.error);
      }
      applets := applets + [applet.value];
      i := i + 1;
    }
    MapAllAll(items, f, applets);
    r := Ok(applets);
  }

  /** `get_applets` once the start page answered: the `entrys` field of the
      decoded JSON. */
  function GetApplets(response: Result<Json>): (r: Result<Json>)
    ensures response.Err? ==> r == Err(response.error)
    ensures response.Ok? ==> r == Index(response.value, "entrys")
    ensures r.Ok? ==> response.value.JObject? && r.value == response.value.fields["entrys"]
  {
    match response
    case Err(e) => Err(e)
    case Ok(body) => Index(body, "entrys")
  }

  /** `get_applet_availability(link)`: true exactly when some applet's link
      contains `link`; a failure fetching or parsing the applets raises. */
  ghost function Availability(join: (string, string) -> string, response: Result<Json>, link: string): (r: Result<bool>)
  {
    match GetApplets(response)
    case Err(e) => Err(e)
    case Ok(json) =>
      match ParsedApplets(join, json)
      case Err(e) => Err(e)
      case Ok(applets) => Ok(exists i :: 0 <= i < |applets| && Contains(applets[i].link, link))
  }

  /** The search loop of `get_applet_availability`, returning at the first
      applet whose link contains `link` (`find` is not -1). */
  method GetAppletAvailability(join: (string, string) -> string, response: Result<Json>, link: string) returns (r: Result<bool>)
    ensures r == Availability(join, response, link)
  {
    var json := GetApplets(response);
    if json.Err? {
      return Err(json.error);
    }
    var parsed := ParseApplets(join, json.value);
    if parsed.Err? {
      return Err(parsed.error);
    }
    var applets := parsed.value;
    var i := 0;
    while i < |applets|
      invariant 0 <= i <= |applets|
      invariant forall k :: 0 <= k < i ==> !Contains(applets[k].link, link)
    {
      if Find(applets[i].link, link) != -1 {
        return Ok(true);
      }
      i := i + 1;
    }
    r := Ok(false);
  }

  /** Every listed applet is available under its own full link, and under
      any piece of it. */
  lemma OwnLinkAvailable(join: (string, string) -> string, response: Result<Json>, k: nat, lo: nat, hi: nat)
    requires GetApplets(response).Ok? && ParsedApplets(join, GetApplets(response).value).Ok?
    requires k < |ParsedApplets(join, GetApplets(response).value).value|
    requires lo <= hi <= |ParsedApplets(join, GetApplets(response).value).value[k].link|
    ensures var link := ParsedApplets(join, GetApplets(response).value).value[k].link;
      Availability(join, response, link[lo..hi]) == Ok(true)
  {
    var link := ParsedApplets(join, GetApplets(response).value).value[k].link;
    assert OccursAt(link, link[lo..hi], lo);
  }

  /** With no applets listed, nothing is available. */
  lemma NothingListedNothingAvailable(join: (string, string) -> string, response: Result<Json>, link: string)
    requires response.Ok? && response.value.JObject? && "entrys" in response.value.fields
    requires response.value.fields["entrys"] == JArray([])
    ensures Availability(join, response, link) == Ok(false)
  {
    assert ParsedApplets(join, JArray([])) == Ok([]);
  }

  /** One app entry of `get_apps`: `Name`, then `link` resolved against the
      index page. */
  function AppOf(join: (string, string) -> string, entry: Json): (r: Result<App>)
    ensures r.Ok? <==>
      entry.JObject? && "Name" in entry.fields && "link" in entry.fields
      && UrlJoin(join, IndexUrl, entry.fields["link"]).Ok?
    ensures r.Ok? ==>
      r.value.name == entry.fields["Name"] && Ok(r.value.link) == UrlJoin(join, IndexUrl, entry.fields["link"])
  {
    match Index(entry, "Name")
    case Err(e) => Err(e)
    case Ok(name) =>
      match Index(entry, "link")
      case Err(e) => Err(e)
      case Ok(target) =>
        match UrlJoin(join, IndexUrl, target)
        case Err(e) => Err(e)
        case Ok(link) => Ok(App(name, link))
  }

  /** What `get_apps` returns or raises once the index page answered
      `response`: one app per entry of `entrys`, in order. */
  function AppList(join: (string, string) -> string, response: Result<Json>): (r: Result<seq<App>>)
    ensures r.Ok? ==>
      response.Ok? && Index(response.value, "entrys").Ok?
      && var items := Elements(Index(response.value, "entrys").value);
      items.Ok? && |r.value| == |items.value|
      && forall i :: 0 <= i < |r.value| ==> Ok(r.value[i]) == AppOf(join, items.value[i])
  {
    match response
    case Err(e) => Err(e)
    case Ok(body) =>
      match Index(body, "entrys")
      case Err(e) => Err(e)
      case Ok(entrys) =>
        match Elements(entrys)
        case Err(e) => Err(e)
        case Ok(items) => MapAll(items, (entry: Json) => AppOf(join, entry))
  }

  /** `get_apps`: the append loop over `entrys`. */
  method GetApps(join: (string, string) -> string, response: Result<Json>) returns (r: Result<seq<App>>)
    ensures r == AppList(join, response)
  {
    if response.Err? {
      return Err(response.error);
    }
    var entrys := Index(response.value, "entrys");
    if entrys.Err? {
      return Err(entrys.error);
    }
    var entries := Elements(entrys.value);
    if entries.Err? {
      return Err(entries.error);
    }
    var items := entries.value;
    var f := (entry: Json) => AppOf(join, entry);
    var apps: seq<App> := [];
    var i := 0;
    while i < |items|
      invariant 0 <= i <= |items|
      invariant |apps| == i
      invariant forall k :: 0 <= k < i ==> f(items[k]).Ok? && apps[k] == f(items[k]).value
    {
      var app := AppOf(join, items[i]);
      if app.Err? {
        MapAllFirstError(items, f, i);
        return Err(app.error);
      }
      apps := apps + [app.value];
      i := i + 1;
    }
    MapAllAll(items, f, apps);
    r := Ok(apps);
  }

  /** `is_link_supported`: True when some app's link is exactly `link`;
      otherwise the loop runs out and the function returns `None`, never
      False. */
  method IsLinkSupported(link: string, apps: seq<App>) returns (r: Option<bool>)
    ensures r == Some(true) <==> exists i :: 0 <= i < |apps| && apps[i].link == link
    ensures r != Some(false)
  {
    var i := 0;
    while i < |apps|
      invariant 0 <= i <= |apps|
      invariant forall k :: 0 <= k < i ==> apps[k].link != link
    {
      if apps[i].link == link {
        return Some(true);
      }
      i := i + 1;
    }
    r := None;
  }
}
