/** The substitution plan of src/lanisapi/substitutions.py and its variant
    under lanisapi/substitutions/ (parse.py has the same `parse_substitutions`;
    substitutions.py the same `get_substitution_dates` and a
    `get_substitutions` that always asks for the whole plan). The page text
    and the answer to the plan request are inputs. */
module Substitutions {
  import opened Outcomes
  import opened PyStr
  import opened JsonAccess
  import opened Dates

  /** `None if not value else value`: a falsy value becomes `None`, any other
      is kept as it is. */
  function Kept(value: Json): (r: Option<Json>)
    ensures r.None? <==> Falsy(value)
    ensures r.Some? ==> r.value == value
  {
    if Falsy(value) then None else Some(value)
  }

  /** One element of the plan; the fields in the order of the dataclass. */
  datatype Substitution = Substitution(
    substitute: Option<Json>, teacher: Option<Json>, hour: Option<Json>,
    className: Option<Json>, classOld: Option<Json>, subject: Option<Json>,
    subjectOld: Option<Json>, room: Option<Json>, roomOld: Option<Json>,
    info: Option<Json>, info2: Option<Json>, kind: Option<Json>,
    learnGroup: Option<Json>, teacherAbbreviation: Option<Json>,
    substituteAbbreviation: Option<Json>, highlighted: Option<Json>)

  /** The keys of an element, one per field, in the same order. */
  const SubstitutionKeys: seq<string> := [
    "Vertreter", "Lehrer", "Stunde", "Klasse", "Klasse_alt", "Fach", "Fach_alt",
    "Raum", "Raum_alt", "Hinweis", "Hinweis2", "Art", "Lerngruppe",
    "Lehrerkuerzel", "Vertreterkuerzel", "_hervorgehoben"]

  /** The `k`-th field of an element. */
  function Field(s: Substitution, k: nat): Option<Json>
    requires k < 16
  {
    match k
    case 0 => s.substitute
    case 1 => s.teacher
    case 2 => s.hour
    case 3 => s.className
    case 4 => s.classOld
    case 5 => s.subject
    case 6 => s.subjectOld
    case 7 => s.room
    case 8 => s.roomOld
    case 9 => s.info
    case 10 => s.info2
    case 11 => s.kind
    case 12 => s.learnGroup
    case 13 => s.teacherAbbreviation
    case 14 => s.substituteAbbreviation
    case _ => s.highlighted
  }

  /** All sixteen keys are present. */
  predicate HasSubstitutionKeys(fields: map<string, Json>)
  {
    "Vertreter" in fields && "Lehrer" in fields && "Stunde" in fields && "Klasse" in fields
    && "Klasse_alt" in fields && "Fach" in fields && "Fach_alt" in fields && "Raum" in fields
    && "Raum_alt" in fields && "Hinweis" in fields && "Hinweis2" in fields && "Art" in fields
    && "Lerngruppe" in fields && "Lehrerkuerzel" in fields && "Vertreterkuerzel" in fields
    && "_hervorgehoben" in fields
  }

  /** The constructor call of the loop body: an element that is not a dict
      raises TypeError at its first subscript, a missing key KeyError; each
      field is `None` exactly when its value is falsy, else that value. */
  function SubstitutionOf(entry: Json): (r: Result<Substitution>)
    ensures r.Ok? <==> entry.JObject? && HasSubstitutionKeys(entry.fields)
    ensures r.Err? ==> r.error == (if entry.JObject? then KeyError else TypeError)
    ensures r.Ok? ==> forall k :: 0 <= k < 16 ==> Field(r.value, k) == Kept(entry.fields[SubstitutionKeys[k]])
  {
    if !entry.JObject? then Err(TypeError)
    else if !HasSubstitutionKeys(entry.fields) then Err(KeyError)
    else
      var f := entry.fields;
      Ok(Substitution(
        Kept(f["Vertreter"]), Kept(f["Lehrer"]), Kept(f["Stunde"]), Kept(f["Klasse"]),
        Kept(f["Klasse_alt"]), Kept(f["Fach"]), Kept(f["Fach_alt"]), Kept(f["Raum"]),
        Kept(f["Raum_alt"]), Kept(f["Hinweis"]), Kept(f["Hinweis2"]), Kept(f["Art"]),
        Kept(f["Lerngruppe"]), Kept(f["Lehrerkuerzel"]), Kept(f["Vertreterkuerzel"]),
        Kept(f["_hervorgehoben"])))
  }

  /** `SubstitutionPlan(date, substitutions)`. */
  datatype Day = Day(date: Date, substitutions: seq<Substitution>)

  /** `strptime(value, ...)` on a JSON value: a string is parsed, anything
      else raises TypeError. */
  function DateOf(value: Json): (r: Result<Date>)
    ensures value.JString? ==> r == ParseDate(value.s)
    ensures !value.JString? ==> r == Err(TypeError)
  {
    if value.JString? then ParseDate(value.s) else Err(TypeError)
  }

  /** What `parse_substitutions(json)` returns or raises: the elements of
      `substitutions`, converted one by one in order, then the date. */
  function ParsedDay(json: Json): (r: Result<Day>)
    ensures r.Ok? ==>
      Index(json, "substitutions").Ok? && Elements(Index(json, "substitutions").value).Ok?
      && var items := Elements(Index(json, "substitutions").value).value;
      |r.value.substitutions| == |items|
      && (forall i :: 0 <= i < |items| ==> Ok(r.value.substitutions[i]) == SubstitutionOf(items[i]))
      && Index(json, "date").Ok? && Ok(r.value.date) == DateOf(Index(json, "date").value)
  {
    match Index(json, "substitutions")
    case Err(e) => Err(e)
    case Ok(list) =>
      match Elements(list)
      case Err(e) => Err(e)
      case Ok(items) =>
        match MapAll(items, SubstitutionOf)
        case Err(e) => Err(e)
        case Ok(substitutions) =>
          match Index(json, "date")
          case Err(e) => Err(e)
          case Ok(value) =>
            match DateOf(value)
            case Err(e) => Err(e)
            case Ok(date) => Ok(Day(date, substitutions))
  }

  /** `parse_substitutions`: the append loop, then the date. */
  method ParseSubstitutions(json: Json) returns (r: Result<Day>)
    ensures r == ParsedDay(json)
  {
    var list := Index(json, "substitutions");
    if list.Err? {
      return Err(list.error);
    }
    var entries := Elements(list.value);
    if entries.Err? {
      return Err(entries.error);
    }
    var items := entries.value;
    var elements: seq<Substitution> := [];
    var i := 0;
    while i < |items|
      invariant 0 <= i <= |items|
      invariant |elements| == i
      invariant forall k :: 0 <= k < i ==> SubstitutionOf(items[k]).Ok? && elements[k] == SubstitutionOf(items[k]).value
    {
      var element := SubstitutionOf(items[i]);
      if element.Err? {
        MapAllFirstError(items, SubstitutionOf, i);
        return Err(element.error);
      }
      elements := elements + [element.value];
      i := i + 1;
    }
    MapAllAll(items, SubstitutionOf, elements);
    var value := Index(json, "date");
    if value.Err? {
      return Err(value.error);
    }
    var date := DateOf(value.value);
    if date.Err? {
      return Err(date.error);
    }
    r := Ok(Day(date.value, elements));
  }

  /** The form of the plan request: `ganzerPlan` and `tag`. */
  datatype PlanRequest = PlanRequest(ganzerPlan: string, tag: string)

  /** `str(whole_plan)` for a bool. */
  function BoolText(b: bool): (r: string)
    ensures r == "True" || r == "False"
  {
    if b then "True" else "False"
  }

  /** The request of src/lanisapi/substitutions.py: Python's spelling of
      the flag, and the date in the two-digit form. */
  function SubstitutionsRequest(date: Date, wholePlan: bool): (r: PlanRequest)
    requires ValidDate(date)
    ensures r.ganzerPlan == BoolText(wholePlan) && r.ganzerPlan != "true"
    ensures ParseDate(r.tag) == Ok(date)
  {
    ParseFormat(date);
    PlanRequest(BoolText(wholePlan), FormatDate(date))
  }

  /** The request of lanisapi/substitutions/substitutions.py: always the
      whole plan, spelled "true". */
  function WholePlanRequest(date: Date): (r: PlanRequest)
    requires ValidDate(date)
    ensures r.ganzerPlan == "true"
    ensures ParseDate(r.tag) == Ok(date)
  {
    ParseFormat(date);
    PlanRequest("true", FormatDate(date))
  }

  /** The dict both `get_substitutions` return once the plan request was
      answered with `answer` (the decoded JSON, or what was raised): the
      date as the request spelled it, and the answer as it is. */
  function PlanOf(request: PlanRequest, answer: Result<Json>): (r: Result<Json>)
    ensures answer.Err? ==> r == Err(answer.error)
    ensures answer.Ok? ==> r == Ok(JObject(map["date" := JString(request.tag), "substitutions" := answer.value]))
  {
    match answer
    case Err(e) => Err(e)
    case Ok(body) => Ok(JObject(map["date" := JString(request.tag), "substitutions" := body]))
  }

  /** `get_substitutions(date, request, whole_plan)` of src/lanisapi. */
  function GetSubstitutions(date: Date, wholePlan: bool, post: PlanRequest -> Result<Json>): (r: Result<Json>)
    requires ValidDate(date)
    ensures var answer := post(SubstitutionsRequest(date, wholePlan));
      (r.Err? <==> answer.Err?) && (answer.Err? ==> r.error == answer.error)
      && (r.Ok? ==> Index(r.value, "substitutions") == answer && Index(r.value, "date").Ok?
                    && DateOf(Index(r.value, "date").value) == Ok(date))
  {
    var request := SubstitutionsRequest(date, wholePlan);
    PlanOf(request, post(request))
  }

  /** `get_substitutions(date, request)` of lanisapi/substitutions. */
  function GetWholeSubstitutions(date: Date, post: PlanRequest -> Result<Json>): (r: Result<Json>)
    requires ValidDate(date)
    ensures var answer := post(WholePlanRequest(date));
      (r.Err? <==> answer.Err?) && (answer.Err? ==> r.error == answer.error)
      && (r.Ok? ==> Index(r.value, "substitutions") == answer && Index(r.value, "date").Ok?
                    && DateOf(Index(r.value, "date").value) == Ok(date))
  {
    var request := WholePlanRequest(date);
    PlanOf(request, post(request))
  }

  /** A fetched plan parses back to the date it was fetched for, and it
      parses exactly when every element of the answer converts. */
  lemma FetchedDay(date: Date, wholePlan: bool, post: PlanRequest -> Result<Json>)
    requires ValidDate(date) && GetSubstitutions(date, wholePlan, post).Ok?
    ensures var answer := post(SubstitutionsRequest(date, wholePlan)).value;
      var day := ParsedDay(GetSubstitutions(date, wholePlan, post).value);
      (day.Ok? <==> Elements(answer).Ok? && forall i :: 0 <= i < |Elements(answer).value| ==> SubstitutionOf(Elements(answer).value[i]).Ok?)
      && (day.Ok? ==> day.value.date == date && |day.value.substitutions| == |Elements(answer).value|)
  {
    ParseFormat(date);
  }

  /** The same for the variant that always asks for the whole plan. */
  lemma FetchedWholeDay(date: Date, post: PlanRequest -> Result<Json>)
    requires ValidDate(date) && GetWholeSubstitutions(date, post).Ok?
    ensures var day := ParsedDay(GetWholeSubstitutions(date, post).value);
      day.Ok? ==> day.value.date == date
  {
    ParseFormat(date);
  }

  /** What `get_substitution_dates` returns or raises for the page `text`:
      the captured dates parsed one by one (the first that does not exist
      raises ValueError), as a set. */
  function DatesIn(text: string): (r: Result<set<Date>>)
    ensures r.Err? ==> r.error == ValueError
  {
    DateSet(Tags(text))
  }

  /** The captures `tags` parsed one by one, as a set. */
  function DateSet(tags: seq<string>): (r: Result<set<Date>>)
    ensures r.Err? ==> r.error == ValueError
  {
    match MapAll(tags, ParseDate)
    case Err(e) => Err(e)
    case Ok(dates) => Ok(set d | d in dates)
  }

  /** The dates are exactly those of the `data-tag` attributes. */
  lemma DatesInTags(text: string, d: Date)
    requires DatesIn(text).Ok?
    ensures d in DatesIn(text).value <==> exists k :: 0 <= k < |Tags(text)| && ParseDate(Tags(text)[k]) == Ok(d)
  {
    var dates := MapAll(Tags(text), ParseDate).value;
    if d in DatesIn(text).value {
      var k :| 0 <= k < |dates| && dates[k] == d;
      assert ParseDate(Tags(text)[k]) == Ok(d);
    }
  }

  /** Appending an element adds it to the set of the elements. */
  lemma SetOfAppend<T>(xs: seq<T>, x: T)
    ensures (set d | d in xs + [x]) == (set d | d in xs) + {x}
  {
  }

  /** `get_substitution_dates`: the captures of the page, then the loop. */
  method GetSubstitutionDates(text: string) returns (r: Result<set<Date>>)
    ensures r == DatesIn(text)
  {
    r := CollectDates(Tags(text));
  }

  /** The loop of `get_substitution_dates`, adding each parsed capture to a
      set; the first capture that is not a date raises. */
  method CollectDates(tags: seq<string>) returns (r: Result<set<Date>>)
    ensures r == DateSet(tags)
  {
    var dates: set<Date> := {};
    ghost var parsed: seq<Date> := [];
    var i := 0;
    while i < |tags|
      invariant 0 <= i <= |tags|
      invariant |parsed| == i
      invariant forall k :: 0 <= k < i ==> ParseDate(tags[k]).Ok? && parsed[k] == ParseDate(tags[k]).value
      invariant dates == set d | d in parsed
    {
      var date := ParseDate(tags[i]);
      if date.Err? {
        MapAllFirstError(tags, ParseDate, i);
        return Err(date.error);
      }
      SetOfAppend(parsed, date.value);
      dates := dates + {date.value};
      parsed := parsed + [date.value];
      i := i + 1;
    }
    MapAllAll(tags, ParseDate, parsed);
    r := Ok(dates);
  }
}
