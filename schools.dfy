/** The school directory: the JSON list of districts with their schools
    that the portal serves at `?a=schoollist`, its parse into districts
    and schools (src/lanisapi/schools.py and lanisapi/schools/parse.py),
    the first-match id lookups (by name and city in src/lanisapi/schools.py,
    by district and name in lanisapi/core/schools/schools.py and
    lanisapi/schools/schools.py), and the flat list of school entries of
    src/lanisapi/functions/schools.py. */
module Schools {
  import opened Outcomes
  import opened Http
  import opened JsonAccess

  /** A school as `parse_schools` builds it: the id is converted with
      `int`, name and city are copied as they are. */
  datatype School = School(id: int, name: Json, city: Json)

  /** A district with its schools in directory order. */
  datatype District = District(id: int, name: Json, schools: seq<School>)

  /** `School(int(school["Id"]), school["Name"], school["Ort"])`. */
  function SchoolOf(entry: Json): (r: Result<School>)
    ensures r.Ok? <==> Index(entry, "Id").Ok? && IntOf(Index(entry, "Id").value).Ok?
                       && Index(entry, "Name").Ok? && Index(entry, "Ort").Ok?
    ensures r.Ok? ==> Ok(r.value.id) == IntOf(Index(entry, "Id").value)
                      && Ok(r.value.name) == Index(entry, "Name") && Ok(r.value.city) == Index(entry, "Ort")
  {
    match Index(entry, "Id")
    case Err(e) => Err(e)
    case Ok(id) =>
      match IntOf(id)
      case Err(e) => Err(e)
      case Ok(n) =>
        match Index(entry, "Name")
        case Err(e) => Err(e)
        case Ok(name) =>
          match Index(entry, "Ort")
          case Err(e) => Err(e)
          case Ok(city) => Ok(School(n, name, city))
  }

  /** One district: its schools converted in order, then
      `District(int(district["Id"]), district["Name"], schools)`. */
  function DistrictOf(entry: Json): (r: Result<District>)
    ensures r.Ok? ==>
      Index(entry, "Schulen").Ok? && Elements(Index(entry, "Schulen").value).Ok?
      && var items := Elements(Index(entry, "Schulen").value).value;
         |r.value.schools| == |items|
         && (forall k :: 0 <= k < |items| ==> SchoolOf(items[k]) == Ok(r.value.schools[k]))
         && Index(entry, "Id").Ok? && Ok(r.value.id) == IntOf(Index(entry, "Id").value)
         && Ok(r.value.name) == Index(entry, "Name")
  {
    match Index(entry, "Schulen")
    case Err(e) => Err(e)
    case Ok(schulen) =>
      match Elements(schulen)
      case Err(e) => Err(e)
      case Ok(items) =>
        match MapAll(items, SchoolOf)
        case Err(e) => Err(e)
        case Ok(schools) =>
          match Index(entry, "Id")
          case Err(e) => Err(e)
          case Ok(id) =>
            match IntOf(id)
            case Err(e) => Err(e)
            case Ok(n) =>
              match Index(entry, "Name")
              case Err(e) => Err(e)
              case Ok(name) => Ok(District(n, name, schools))
  }

  /** `parse_schools(json)`: one district per element of the list, in order. */
  function Districts(json: Json): (r: Result<seq<District>>)
    ensures r.Ok? ==>
      Elements(json).Ok? && |r.value| == |Elements(json).value|
      && forall i :: 0 <= i < |r.value| ==> DistrictOf(Elements(json).value[i]) == Ok(r.value[i])
    ensures Elements(json).Ok? && (forall i :: 0 <= i < |Elements(json).value| ==> DistrictOf(Elements(json).value[i]).Ok?)
            ==> r.Ok?
  {
    match Elements(json)
    case Err(e) => Err(e)
    case Ok(entries) => MapAll(entries, DistrictOf)
  }

  /** `parse_schools`, with its two nested loops. */
  method ParseSchools(json: Json) returns (r: Result<seq<District>>)
    ensures r == Districts(json)
  {
    var outer := Elements(json);
    if outer.Err? {
      return Err(outer.error);
    }
    var entries := outer.value;
    var districts: seq<District> := [];
    var i := 0;
    while i < |entries|
      invariant 0 <= i <= |entries| && |districts| == i
      invariant forall k :: 0 <= k < i ==> DistrictOf(entries[k]) == Ok(districts[k])
    {
      var entry := entries[i];
      var schulen := Index(entry, "Schulen");
      if schulen.Err? {
        MapAllFirstError(entries, DistrictOf, i);
        return Err(schulen.error);
      }
      var inner := Elements(schulen.value);
      if inner.Err? {
        MapAllFirstError(entries, DistrictOf, i);
        return Err(inner.error);
      }
      var items := inner.value;
      var schools: seq<School> := [];
      var j := 0;
      while j < |items|
        invariant 0 <= j <= |items| && |schools| == j
        invariant forall k :: 0 <= k < j ==> SchoolOf(items[k]) == Ok(schools[k])
      {
        var school := SchoolOf(items[j]);
        if school.Err? {
          MapAllFirstError(items, SchoolOf, j);
          MapAllFirstError(entries, DistrictOf, i);
          return Err(school.error);
        }
        schools := schools + [school.value];
        j := j + 1;
      }
      MapAllAll(items, SchoolOf, schools);
      var district := DistrictOf(entry);
      if district.Err? {
        MapAllFirstError(entries, DistrictOf, i);
        return Err(district.error);
      }
      districts := districts + [district.value];
      i := i + 1;
    }
    MapAllAll(entries, DistrictOf, districts);
    r := Ok(districts);
  }

  /** What an id lookup asks for: a school name and city, or a school name
      only (the district being chosen separately). */
  datatype Query = NameAndCity(name: string, city: string) | NameOnly(name: string)

  predicate Matches(q: Query, s: School)
  {
    s.name == JString(q.name) && (q.NameAndCity? ==> s.city == JString(q.city))
  }

  /** The id of the first matching school of a list. */
  function FirstAmong(schools: seq<School>, q: Query): (r: Option<int>)
    ensures r.None? <==> forall k :: 0 <= k < |schools| ==> !Matches(q, schools[k])
    ensures r.Some? ==> exists k :: 0 <= k < |schools| && Matches(q, schools[k]) && schools[k].id == r.value
                                    && forall j :: 0 <= j < k ==> !Matches(q, schools[j])
    decreases |schools|
  {
    if |schools| == 0 then None
    else if Matches(q, schools[0]) then Some(schools[0].id)
    else
      var rest := FirstAmong(schools[1..], q);
      assert forall k :: 1 <= k < |schools| ==> schools[k] == schools[1..][k - 1];
      if rest.Some? then
        var k :| 0 <= k < |schools| - 1 && Matches(q, schools[1..][k]) && schools[1..][k].id == rest.value
                 && forall j :: 0 <= j < k ==> !Matches(q, schools[1..][j]);
        assert Matches(q, schools[k + 1]) && schools[k + 1].id == rest.value;
        rest
      else rest
  }

  /** Every school of the directory, district by district. */
  function AllSchools(districts: seq<District>): seq<School>
  {
    if |districts| == 0 then [] else districts[0].schools + AllSchools(districts[1..])
  }

  /** The nested search: the first matching school of the first district
      that has one. */
  function FirstIn(districts: seq<District>, q: Query): Option<int>
  {
    if |districts| == 0 then None
    else if FirstAmong(districts[0].schools, q).Some? then FirstAmong(districts[0].schools, q)
    else FirstIn(districts[1..], q)
  }

  lemma {:induction false} FirstAmongAppend(a: seq<School>, b: seq<School>, q: Query)
    ensures FirstAmong(a + b, q) == if FirstAmong(a, q).Some? then FirstAmong(a, q) else FirstAmong(b, q)
    decreases |a|
  {
    if |a| > 0 {
      assert (a + b)[0] == a[0];
      assert (a + b)[1..] == a[1..] + b;
      FirstAmongAppend(a[1..], b, q);
    } else {
      assert a + b == b;
    }
  }

  /** The nested search finds the first matching school in district-then-
      school order: the first match of the flattened directory. */
  lemma {:induction false} FirstInIsFirstOverall(districts: seq<District>, q: Query)
    ensures FirstIn(districts, q) == FirstAmong(AllSchools(districts), q)
    decreases |districts|
  {
    if |districts| > 0 {
      FirstInIsFirstOverall(districts[1..], q);
      FirstAmongAppend(districts[0].schools, AllSchools(districts[1..]), q);
    }
  }

  /** The districts named `districtName`, in order. */
  function InDistrict(districts: seq<District>, districtName: string): (r: seq<District>)
    ensures forall i :: 0 <= i < |r| ==> r[i] in districts && r[i].name == JString(districtName)
    ensures forall d :: d in districts && d.name == JString(districtName) ==> d in r
    decreases |districts|
  {
    if |districts| == 0 then []
    else if districts[0].name == JString(districtName) then [districts[0]] + InDistrict(districts[1..], districtName)
    else InDistrict(districts[1..], districtName)
  }

  /** The search loop of src/lanisapi/schools.py `get_school_id`. */
  method FindByNameAndCity(districts: seq<District>, name: string, city: string) returns (r: Option<int>)
    ensures r == FirstIn(districts, NameAndCity(name, city))
  {
    var q := NameAndCity(name, city);
    var i := 0;
    while i < |districts|
      invariant 0 <= i <= |districts|
      invariant FirstIn(districts, q) == FirstIn(districts[i..], q)
    {
      var schools := districts[i].schools;
      var j := 0;
      while j < |schools|
        invariant 0 <= j <= |schools|
        invariant FirstAmong(schools, q) == FirstAmong(schools[j..], q)
      {
        if schools[j].name == JString(name) && schools[j].city == JString(city) {
          assert Matches(q, schools[j..][0]);
          return Some(schools[j].id);
        }
        assert schools[j..][1..] == schools[j + 1..];
        j := j + 1;
      }
      assert districts[i..][1..] == districts[i + 1..];
      i := i + 1;
    }
    return None;
  }

  /** The search loop of the two `get_school_id(name, district_name)`
      variants: only districts of that name are searched, by school name. */
  method FindInDistrict(districts: seq<District>, name: string, districtName: string) returns (r: Option<int>)
    ensures r == FirstIn(InDistrict(districts, districtName), NameOnly(name))
  {
    var q := NameOnly(name);
    var i := 0;
    while i < |districts|
      invariant 0 <= i <= |districts|
      invariant FirstIn(InDistrict(districts, districtName), q) == FirstIn(InDistrict(districts[i..], districtName), q)
    {
      assert districts[i..][1..] == districts[i + 1..];
      if districts[i].name == JString(districtName) {
        var schools := districts[i].schools;
        var j := 0;
        while j < |schools|
          invariant 0 <= j <= |schools|
          invariant FirstAmong(schools, q) == FirstAmong(schools[j..], q)
        {
          if schools[j].name == JString(name) {
            assert Matches(q, schools[j..][0]);
            return Some(schools[j].id);
          }
          assert schools[j..][1..] == schools[j + 1..];
          j := j + 1;
        }
      }
      i := i + 1;
    }
    return None;
  }

  /** `get_schools`: `None` (JSON null) for a falsy response, the decoded
      JSON otherwise. A failed request raises. */
  function GetSchools(response: Result<JsonResponse>): (r: Result<Json>)
    ensures response.Err? ==> r == Err(response.error)
    ensures response.Ok? && !response.value.truthy ==> r == Ok(JNull)
    ensures response.Ok? && response.value.truthy ==> r == Ok(response.value.body)
  {
    match response
    case Err(e) => Err(e)
    case Ok(resp) => if resp.truthy then Ok(resp.body) else Ok(JNull)
  }

  /** `parse_schools(get_schools(request))` followed by a search. */
  function Directory(response: Result<Json>): Result<seq<District>>
  {
    match response
    case Err(e) => Err(e)
    case Ok(json) => Districts(json)
  }

  /** `get_school_id(name, city)` of src/lanisapi/schools.py. */
  method GetSchoolId(response: Result<JsonResponse>, name: string, city: string) returns (r: Result<Option<int>>)
    ensures var ds := Directory(GetSchools(response));
      (ds.Err? ==> r == Err(ds.error)) && (ds.Ok? ==> r == Ok(FirstIn(ds.value, NameAndCity(name, city))))
  {
    var json := GetSchools(response);
    if json.Err? {
      return Err(json.error);
    }
    var districts := ParseSchools(json.value);
    if districts.Err? {
      return Err(districts.error);
    }
    var id := FindByNameAndCity(districts.value, name, city);
    r := Ok(id);
  }

  /** `get_school_id(name, district_name)` of lanisapi/core/schools/schools.py
      and lanisapi/schools/schools.py. */
  method GetSchoolIdInDistrict(response: Result<JsonResponse>, name: string, districtName: string) returns (r: Result<Option<int>>)
    ensures var ds := Directory(GetSchools(response));
      (ds.Err? ==> r == Err(ds.error))
      && (ds.Ok? ==> r == Ok(FirstIn(InDistrict(ds.value, districtName), NameOnly(name))))
  {
    var json := GetSchools(response);
    if json.Err? {
      return Err(json.error);
    }
    var districts := ParseSchools(json.value);
    if districts.Err? {
      return Err(districts.error);
    }
    var id := FindInDistrict(districts.value, name, districtName);
    r := Ok(id);
  }

  /** A falsy directory response makes every lookup fail: `parse_schools`
      iterates over `None`. */
  lemma FalsyDirectoryIsTypeError(response: JsonResponse)
    requires !response.truthy
    ensures Directory(GetSchools(Ok(response))) == Err(TypeError)
  {
  }

  /** The school entries of the directory's groups, in order. */
  function Flatten(groups: seq<Json>): (r: Result<seq<Json>>)
    decreases |groups|
  {
    if |groups| == 0 then Ok([])
    else
      match Index(groups[0], "Schulen")
      case Err(e) => Err(e)
      case Ok(schulen) =>
        match Iterate(schulen)
        case Err(e) => Err(e)
        case Ok(items) =>
          match Flatten(groups[1..])
          case Err(e) => Err(e)
          case Ok(rest) => Ok(items + rest)
  }

  /** The body of `_get_schools` after the request: `None` for a falsy
      response, otherwise the schools of all groups as one list. */
  function SchoolList(response: Result<JsonResponse>): (r: Result<Json>)
    ensures response.Err? ==> r == Err(response.error)
    ensures response.Ok? && !response.value.truthy ==> r == Ok(JNull)
  {
    match response
    case Err(e) => Err(e)
    case Ok(resp) =>
      if !resp.truthy then Ok(JNull)
      else
        match Elements(resp.body)
        case Err(e) => Err(e)
        case Ok(groups) =>
          match Flatten(groups)
          case Err(e) => Err(e)
          case Ok(schools) => Ok(JArray(schools))
  }

  /** `_get_schools()` of src/lanisapi/functions/schools.py: the contents of
      an existing `schools.json` without any request; otherwise the
      directory through the `Request` helper, flattened by two nested
      loops. */
  method GetSchoolList(cached: Option<Json>, response: Result<JsonResponse>) returns (r: Result<Json>)
    ensures cached.Some? ==> r == Ok(cached.value)
    ensures cached.None? ==> r == SchoolList(ViaRequestJson(response))
  {
    if cached.Some? {
      return Ok(cached.value);
    }
    var answer := ViaRequestJson(response);
    if answer.Err? {
      return Err(answer.error);
    }
    if !answer.value.truthy {
      return Ok(JNull);
    }
    var outer := Elements(answer.value.body);
    if outer.Err? {
      return Err(outer.error);
    }
    var schools := FlattenGroups(outer.value);
    if schools.Err? {
      return Err(schools.error);
    }
    return Ok(JArray(schools.value));
  }

  /** The nested loop of `_get_schools`: every entry of every group's
      `Schulen`, appended as it is. */
  method FlattenGroups(groups: seq<Json>) returns (r: Result<seq<Json>>)
    ensures r == Flatten(groups)
  {
    var schools: seq<Json> := [];
    var i := 0;
    while i < |groups|
      invariant 0 <= i <= |groups|
      invariant Flatten(groups).Ok? ==> Flatten(groups[i..]).Ok? && Flatten(groups).value == schools + Flatten(groups[i..]).value
      invariant Flatten(groups).Err? ==> Flatten(groups[i..]) == Flatten(groups)
    {
      assert groups[i..][1..] == groups[i + 1..];
      var schulen := Index(groups[i], "Schulen");
      if schulen.Err? {
        return Err(schulen.error);
      }
      var items := Iterate(schulen.value);
      if items.Err? {
        return Err(items.error);
      }
      ghost var before := schools;
      var j := 0;
      while j < |items.value|
        invariant 0 <= j <= |items.value|
        invariant schools == before + items.value[..j]
      {
        schools := schools + [items.value[j]];
        j := j + 1;
      }
      assert items.value[..j] == items.value;
      i := i + 1;
    }
    assert groups[i..] == [];
    assert Flatten(groups[i..]) == Ok([]);
    assert schools + [] == schools;
    return Ok(schools);
  }

  /** Entries that convert pointwise to two lists of schools, concatenated,
      convert pointwise to the concatenated schools. */
  lemma ConvertConcat(items: seq<Json>, rest: seq<Json>, head: seq<School>, others: seq<School>)
    requires |items| == |head| && forall k :: 0 <= k < |items| ==> SchoolOf(items[k]) == Ok(head[k])
    requires |rest| == |others| && forall k :: 0 <= k < |rest| ==> SchoolOf(rest[k]) == Ok(others[k])
    ensures |items + rest| == |head + others|
    ensures forall k :: 0 <= k < |items + rest| ==> SchoolOf((items + rest)[k]) == Ok((head + others)[k])
  {
    forall k | 0 <= k < |items + rest|
      ensures SchoolOf((items + rest)[k]) == Ok((head + others)[k])
    {
      if k >= |items| {
        assert (items + rest)[k] == rest[k - |items|] && (head + others)[k] == others[k - |items|];
      }
    }
  }

  /** The `Schulen` entries of a district that converts are the ones its
      schools were converted from. */
  lemma GroupEntries(group: Json, district: District)
    requires DistrictOf(group) == Ok(district)
    ensures Index(group, "Schulen").Ok? && Iterate(Index(group, "Schulen").value).Ok?
    ensures var items := Iterate(Index(group, "Schulen").value).value;
      |items| == |district.schools| && forall k :: 0 <= k < |items| ==> SchoolOf(items[k]) == Ok(district.schools[k])
  {
  }

  /** The two readings of the directory agree: whenever `parse_schools`
      succeeds, the flat list holds, in order, exactly the entries the
      districts' schools were converted from. */
  lemma {:induction false} FlattenMatchesParse(groups: seq<Json>, districts: seq<District>)
    requires |districts| == |groups|
    requires forall i :: 0 <= i < |groups| ==> DistrictOf(groups[i]) == Ok(districts[i])
    ensures Flatten(groups).Ok?
    ensures |Flatten(groups).value| == |AllSchools(districts)|
    ensures forall k :: 0 <= k < |AllSchools(districts)| ==> SchoolOf(Flatten(groups).value[k]) == Ok(AllSchools(districts)[k])
    decreases |groups|
  {
    if |groups| > 0 {
      var tailGroups, tailDistricts := groups[1..], districts[1..];
      forall i | 0 <= i < |tailGroups|
        ensures DistrictOf(tailGroups[i]) == Ok(tailDistricts[i])
      {
        assert tailGroups[i] == groups[i + 1] && tailDistricts[i] == districts[i + 1];
      }
      FlattenMatchesParse(tailGroups, tailDistricts);
      GroupEntries(groups[0], districts[0]);
      var items := Iterate(Index(groups[0], "Schulen").value).value;
      var rest := Flatten(tailGroups).value;
      assert Flatten(groups) == Ok(items + rest);
      var head, others := districts[0].schools, AllSchools(tailDistricts);
      assert AllSchools(districts) == head + others;
      ConvertConcat(items, rest, head, others);
    }
  }
}
