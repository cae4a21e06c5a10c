/** The experimental `SubstitutionHTMLModule` of
    src/lanisapi/module/experimental/substitution_html.py: the distinct
    `data-tag` dates of the plan page, one plan request per date, and one
    plan per date. The page text and the answers are inputs. */
module SubstitutionHtml {
  import opened Outcomes
  import opened JsonAccess
  import opened Dates
  import Substitutions

  /** `_get_dates`: the set of captured date strings, kept as text. */
  function DateTags(text: string): (r: set<string>)
    ensures forall s :: s in r <==> s in Tags(text)
    ensures forall s :: s in r ==> DateShape(s)
  {
    set s | s in Tags(text)
  }

  /** An element of the plan as `_fetch_plan` builds it: seven values
      copied, and `notice` `None` exactly when `Hinweis` is falsy. */
  datatype Entry = Entry(kind: Json, substitute: Json, teacher: Json, hours: Json,
                         classes: Json, subject: Json, room: Json, notice: Option<Json>)

  datatype Plan = Plan(date: Date, substitutions: seq<Entry>)

  /** The keys `_fetch_plan` reads. */
  predicate HasEntryKeys(fields: map<string, Json>)
  {
    "Art" in fields && "Vertreter" in fields && "Lehrer" in fields && "Stunde" in fields
    && "Klasse" in fields && "Fach" in fields && "Raum" in fields && "Hinweis" in fields
  }

  /** One element of the comprehension: TypeError for a value that is not
      a dict, KeyError for a missing key. */
  function EntryOf(element: Json): (r: Result<Entry>)
    ensures r.Ok? <==> element.JObject? && HasEntryKeys(element.fields)
    ensures r.Err? ==> r.error == (if element.JObject? then KeyError else TypeError)
    ensures r.Ok? ==>
      var f := element.fields;
      r.value.kind == f["Art"] && r.value.substitute == f["Vertreter"] && r.value.teacher == f["Lehrer"]
      && r.value.hours == f["Stunde"] && r.value.classes == f["Klasse"] && r.value.subject == f["Fach"]
      && r.value.room == f["Raum"] && r.value.notice == Substitutions.Kept(f["Hinweis"])
  {
    if !element.JObject? then Err(TypeError)
    else if !HasEntryKeys(element.fields) then Err(KeyError)
    else
      var f := element.fields;
      Ok(Entry(f["Art"], f["Vertreter"], f["Lehrer"], f["Stunde"], f["Klasse"], f["Fach"], f["Raum"],
               Substitutions.Kept(f["Hinweis"])))
  }

  /** The plan request `_fetch_plan(date)` sends. */
  function Request(date: string): (r: Substitutions.PlanRequest)
    ensures r.ganzerPlan == "true" && r.tag == date
  {
    Substitutions.PlanRequest("true", date)
  }

  /** `_fetch_plan(date)`: the request is sent first, then the date is
      parsed, then the answer's elements are converted in order. */
  function FetchPlan(date: string, post: Substitutions.PlanRequest -> Result<Json>): (r: Result<Plan>)
    ensures r.Ok? ==>
      post(Request(date)).Ok? && ParseDate(date) == Ok(r.value.date)
      && var items := Elements(post(Request(date)).value);
      items.Ok? && |r.value.substitutions| == |items.value|
      && forall i :: 0 <= i < |items.value| ==> Ok(r.value.substitutions[i]) == EntryOf(items.value[i])
    ensures post(Request(date)).Ok? && ParseDate(date).Err? ==> r == Err(ValueError)
  {
    match post(Request(date))
    case Err(e) => Err(e)
    case Ok(body) =>
      match ParseDate(date)
      case Err(e) => Err(e)
      case Ok(day) =>
        match Elements(body)
        case Err(e) => Err(e)
        case Ok(items) =>
          match MapAll(items, EntryOf)
          case Err(e) => Err(e)
          case Ok(entries) => Ok(Plan(day, entries))
  }

  /** A plan fetched for a captured date carries that date: written back
      with `strftime`, it is the captured text again. */
  lemma FetchedTagDate(date: string, post: Substitutions.PlanRequest -> Result<Json>)
    requires DateShape(date) && FetchPlan(date, post).Ok?
    ensures FormatDate(FetchPlan(date, post).value.date) == date
  {
    FormatParse(date);
  }

  predicate Distinct<T(==)>(xs: seq<T>)
  {
    forall i, j :: 0 <= i < j < |xs| ==> xs[i] != xs[j]
  }

  /** A sequence without repetitions has as many elements as its set. */
  lemma {:induction false} DistinctCard<T>(xs: seq<T>)
    requires Distinct(xs)
    ensures |set x | x in xs| == |xs|
    decreases |xs|
  {
    if |xs| > 0 {
      var init := xs[..|xs| - 1];
      var last := xs[|xs| - 1];
      assert Distinct(init);
      DistinctCard(init);
      assert last !in init;
      assert (set x | x in xs) == (set x | x in init) + {last};
    }
  }

  /** `get`: one plan per distinct date, in the order the set is iterated;
      `order` is that order. A failing plan ends the loop with its
      exception, its date being the last of `order`. */
  method Get(text: string, post: Substitutions.PlanRequest -> Result<Json>) returns (r: Result<seq<Plan>>, order: seq<string>)
    ensures Distinct(order) && forall k :: 0 <= k < |order| ==> order[k] in DateTags(text)
    ensures r.Ok? ==>
      (set s | s in order) == DateTags(text) && |r.value| == |order| == |DateTags(text)|
      && forall k :: 0 <= k < |order| ==> Ok(r.value[k]) == FetchPlan(order[k], post)
    ensures r.Err? ==> |order| >= 1 && FetchPlan(order[|order| - 1], post) == Err(r.error)
                       && forall k :: 0 <= k < |order| - 1 ==> FetchPlan(order[k], post).Ok?
  {
    var dates := DateTags(text);
    var remaining := dates;
    var plans: seq<Plan> := [];
    order := [];
    while remaining != {}
      invariant remaining <= dates
      invariant forall s :: s in dates ==> (s in remaining <==> s !in order)
      invariant Distinct(order) && forall k :: 0 <= k < |order| ==> order[k] in dates
      invariant |plans| == |order|
      invariant forall k :: 0 <= k < |order| ==> Ok(plans[k]) == FetchPlan(order[k], post)
      decreases remaining
    {
      var date :| date in remaining;
      order := order + [date];
      var plan := FetchPlan(date, post);
      if plan.Err? {
        return Err(plan.error), order;
      }
      plans := plans + [plan.value];
      remaining := remaining - {date};
    }
    assert (set s | s in order) == dates;
    DistinctCard(order);
    r := Ok(plans);
  }
}
