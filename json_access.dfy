/** What Python does when the code reads decoded JSON: `value[key]`,
    `int(value)`, a `for` loop over a value, and a list built by applying
    one conversion to every element, stopping at the first exception. */
module JsonAccess {
  import opened Outcomes
  import opened PyStr

  /** `value[key]` with a string key: KeyError for a dict without it, and
      TypeError for a value that is not a dict. */
  function Index(value: Json, key: string): (r: Result<Json>)
    ensures r.Ok? <==> value.JObject? && key in value.fields
    ensures r.Ok? ==> r.value == value.fields[key]
    ensures r.Err? ==> r.error == (if value.JObject? then KeyError else TypeError)
  {
    match value
    case JObject(fields) => if key in fields then Ok(fields[key]) else Err(KeyError)
    case _ => Err(TypeError)
  }

  /** `int(value)`: numbers are kept, booleans count 0 or 1, strings are
      parsed, and `None`, lists and dicts raise TypeError. */
  function IntOf(value: Json): (r: Result<int>)
    ensures r.Err? ==> r.error in {ValueError, TypeError}
    ensures r.Err? && r.error == TypeError <==> value.JNull? || value.JArray? || value.JObject?
  {
    match value
    case JNumber(n) => Ok(n)
    case JBool(b) => Ok(if b then 1 else 0)
    case JString(s) => ParseInt(s)
    case _ => Err(TypeError)
  }

  /** An id the portal sends as a decimal string reads back as that number. */
  lemma IntOfDecimal(n: int)
    ensures IntOf(JString(Decimal(n))) == Ok(n)
  {
    ParseDecimal(n);
  }

  /** The elements a `for` loop visits when its body first indexes each
      one with a string key: a list gives its items; an empty string or
      dict gives none; a non-empty string or dict yields strings, which
      cannot be indexed so, and anything else is not iterable, so both
      raise TypeError. */
  function Elements(value: Json): (r: Result<seq<Json>>)
    ensures r.Err? ==> r.error == TypeError
    ensures r.Ok? && r.value != [] ==> value == JArray(r.value)
    ensures value.JArray? ==> r == Ok(value.items)
  {
    match value
    case JArray(items) => Ok(items)
    case JObject(fields) => if fields == map[] then Ok([]) else Err(TypeError)
    case JString(s) => if s == "" then Ok([]) else Err(TypeError)
    case _ => Err(TypeError)
  }

  /** The one-character strings of a string, as iterating over it yields them. */
  function Characters(s: string): (r: seq<Json>)
    ensures |r| == |s| && forall i :: 0 <= i < |s| ==> r[i] == JString([s[i]])
  {
    seq(|s|, i requires 0 <= i < |s| => JString([s[i]]))
  }

  /** The elements a `for` loop visits when its body takes each one as it
      is: the items of a list, the characters of a string, nothing for an
      empty dict; a non-empty dict is not covered (its keys, in insertion
      order) and raises TypeError here, like any value that is not
      iterable. */
  function Iterate(value: Json): (r: Result<seq<Json>>)
    ensures r.Err? ==> r.error == TypeError
    ensures value.JArray? ==> r == Ok(value.items)
    ensures Elements(value).Ok? ==> r == Elements(value)
  {
    match value
    case JArray(items) => Ok(items)
    case JString(s) => Ok(Characters(s))
    case JObject(fields) => if fields == map[] then Ok([]) else Err(TypeError)
    case _ => Err(TypeError)
  }

  /** `[f(x) for x in xs]` for a conversion that may raise: every element
      converted in order, or the exception of the first element that
      fails. */
  function MapAll<A, B>(xs: seq<A>, f: A -> Result<B>): (r: Result<seq<B>>)
    ensures r.Ok? <==> forall i :: 0 <= i < |xs| ==> f(xs[i]).Ok?
    ensures r.Ok? ==> |r.value| == |xs| && forall i :: 0 <= i < |xs| ==> r.value[i] == f(xs[i]).value
    ensures r.Err? ==> exists k :: 0 <= k < |xs| && f(xs[k]).Err? && r.error == f(xs[k]).error
                                   && forall i :: 0 <= i < k ==> f(xs[i]).Ok?
    decreases |xs|
  {
    if |xs| == 0 then Ok([])
    else
      match f(xs[0])
      case Err(e) => Err(e)
      case Ok(y) =>
        match MapAll(xs[1..], f)
        case Err(e) =>
          assert exists k :: 0 <= k < |xs| - 1 && f(xs[1..][k]).Err? && e == f(xs[1..][k]).error
                             && forall i :: 0 <= i < k ==> f(xs[1..][i]).Ok?;
          var k :| 0 <= k < |xs| - 1 && f(xs[1..][k]).Err? && e == f(xs[1..][k]).error
                   && forall i :: 0 <= i < k ==> f(xs[1..][i]).Ok?;
          assert forall i :: 0 <= i < k + 1 ==> f(xs[i]).Ok? by {
            forall i | 0 <= i < k + 1
              ensures f(xs[i]).Ok?
            {
              if i > 0 {
                assert xs[i] == xs[1..][i - 1];
              }
            }
          }
          assert xs[k + 1] == xs[1..][k];
          Err(e)
        case Ok(ys) =>
          assert forall i :: 1 <= i < |xs| ==> xs[i] == xs[1..][i - 1];
          Ok([y] + ys)
  }

  /** A failing element at `k`, with every element before it converting,
      gives that element's exception. */
  lemma MapAllFirstError<A, B>(xs: seq<A>, f: A -> Result<B>, k: nat)
    requires k < |xs| && f(xs[k]).Err? && forall i :: 0 <= i < k ==> f(xs[i]).Ok?
    ensures MapAll(xs, f) == Err(f(xs[k]).error)
  {
    var r := MapAll(xs, f);
    assert r.Err?;
    var k' :| 0 <= k' < |xs| && f(xs[k']).Err? && r.error == f(xs[k']).error
              && forall i :: 0 <= i < k' ==> f(xs[i]).Ok?;
    assert k' == k;
  }

  /** When every element converts, the list of results is the one `MapAll` returns. */
  lemma MapAllAll<A, B>(xs: seq<A>, f: A -> Result<B>, ys: seq<B>)
    requires |ys| == |xs| && forall i :: 0 <= i < |xs| ==> f(xs[i]).Ok? && ys[i] == f(xs[i]).value
    ensures MapAll(xs, f) == Ok(ys)
  {
    var r := MapAll(xs, f);
    assert r.Ok?;
    assert r.value == ys;
  }
}
