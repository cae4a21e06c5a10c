/** Python's `str.find`, `in`, `str.split`, `str.join`, list indexing, and
    the decimal `str(int)` / `int(str)` conversions, as the rest of the
    model uses them. */
module PyStr {
  import opened Outcomes

  /** `sub` occurs in `s` starting at index `i`. */
  predicate OccursAt(s: string, sub: string, i: int)
  {
    0 <= i && i + |sub| <= |s| && s[i..i + |sub|] == sub
  }

  /** Python's `sub in s`. */
  ghost predicate Contains(s: string, sub: string)
  {
    exists i :: OccursAt(s, sub, i)
  }

  /** `s.find(sub, k)`: the first index at or after `k` where `sub` occurs, or -1. */
  function FindFrom(s: string, sub: string, k: nat): (r: int)
    ensures r == -1 || (k <= r && OccursAt(s, sub, r))
    ensures r == -1 ==> forall i :: k <= i ==> !OccursAt(s, sub, i)
    ensures r >= 0 ==> forall i :: k <= i < r ==> !OccursAt(s, sub, i)
    decreases |s| - k
  {
    if k + |sub| > |s| then -1
    else if s[k..k + |sub|] == sub then k
    else FindFrom(s, sub, k + 1)
  }

  /** `s.find(sub)`; like Python, the empty `sub` is found at index 0. */
  function Find(s: string, sub: string): (r: int)
    ensures r == -1 <==> !Contains(s, sub)
    ensures r >= 0 ==> OccursAt(s, sub, r) && forall i :: 0 <= i < r ==> !OccursAt(s, sub, i)
  {
    FindFrom(s, sub, 0)
  }

  /** `s.split(sep)` for a non-empty separator (Python raises on an empty one;
      every call in the source uses a literal). */
  function Split(s: string, sep: string): (r: seq<string>)
    requires sep != []
    ensures |r| >= 1
    decreases |s|
  {
    var i := Find(s, sep);
    if i < 0 then [s] else [s[..i]] + Split(s[i + |sep|..], sep)
  }

  /** `sep.join(parts)`. */
  function Join(parts: seq<string>, sep: string): string
  {
    if |parts| == 0 then ""
    else if |parts| == 1 then parts[0]
    else parts[0] + sep + Join(parts[1..], sep)
  }

  /** `xs[k]` for a non-negative index: IndexError past the end. */
  function Item<T>(xs: seq<T>, k: nat): (r: Result<T>)
    ensures r.Ok? <==> k < |xs|
    ensures r.Ok? ==> r.value == xs[k]
    ensures r.Err? ==> r.error == IndexError
  {
    if k < |xs| then Ok(xs[k]) else Err(IndexError)
  }

  /** No proper suffix of `sep` is also a prefix of it; `";"`, `"="` and `", "`
      are such separators, and for them the first occurrence after a field
      that does not contain `sep` is exactly where that field ends. */
  predicate Unbordered(sep: string)
  {
    forall k :: 0 < k < |sep| ==> sep[k..] != sep[..|sep| - k]
  }

  lemma ContainsChar(s: string, c: char)
    ensures Contains(s, [c]) <==> c in s
  {
    if c in s {
      var i :| 0 <= i < |s| && s[i] == c;
      assert OccursAt(s, [c], i);
    }
    if Contains(s, [c]) {
      var i :| OccursAt(s, [c], i);
      assert s[i..i + 1][0] == c;
    }
  }

  /** A string that lacks some character of `sub` does not contain `sub`. */
  lemma LacksCharOf(s: string, sub: string, j: nat)
    requires j < |sub| && sub[j] !in s
    ensures !Contains(s, sub)
  {
    forall i
      ensures !OccursAt(s, sub, i)
    {
      if 0 <= i && i + |sub| <= |s| {
        assert s[i..i + |sub|][j] == s[i + j];
        assert s[i + j] in s;
      }
    }
  }

  /** Splitting a string that does not contain the separator yields it alone. */
  lemma SplitNoSep(s: string, sep: string)
    requires sep != [] && !Contains(s, sep)
    ensures Split(s, sep) == [s]
  {
  }

  /** In `a + sep + b`, no occurrence of an unbordered `sep` starts inside
      `a` when `a` itself does not contain `sep`. */
  lemma NoOccurrenceInside(a: string, sep: string, b: string, i: int)
    requires sep != [] && Unbordered(sep) && !Contains(a, sep)
    requires 0 <= i < |a|
    ensures !OccursAt(a + sep + b, sep, i)
  {
    var s := a + sep + b;
    if i + |sep| <= |a| {
      assert s[i..i + |sep|] == a[i..i + |sep|];
      assert !OccursAt(a, sep, i);
    } else {
      var k := |a| - i;
      var w := s[i..i + |sep|];
      assert w[k..] == sep[..|sep| - k] by {
        forall t | 0 <= t < |sep| - k
          ensures w[k..][t] == sep[..|sep| - k][t]
        {
          assert w[k + t] == s[|a| + t] == sep[t];
        }
      }
      assert sep[k..] != sep[..|sep| - k];
    }
  }

  /** The first field of `a + sep + b` is `a` when `a` does not contain `sep`. */
  lemma {:induction false} SplitCons(a: string, sep: string, b: string)
    requires sep != [] && Unbordered(sep) && !Contains(a, sep)
    ensures Split(a + sep + b, sep) == [a] + Split(b, sep)
  {
    var s := a + sep + b;
    assert s[|a|..|a| + |sep|] == sep;
    assert OccursAt(s, sep, |a|);
    forall i | 0 <= i < |a|
      ensures !OccursAt(s, sep, i)
    {
      NoOccurrenceInside(a, sep, b, i);
    }
    var f := Find(s, sep);
    assert f == |a|;
    assert s[..|a|] == a;
    assert s[|a| + |sep|..] == b;
  }

  /** Splitting `fields` joined by a one-character separator, followed by the
      separator and more text, gives back the fields first. */
  lemma {:induction false} SplitAfterFields(fields: seq<string>, c: char, rest: string)
    requires |fields| >= 1
    requires forall i :: 0 <= i < |fields| ==> c !in fields[i]
    ensures Split(Join(fields, [c]) + [c] + rest, [c]) == fields + Split(rest, [c])
  {
    ContainsChar(fields[0], c);
    if |fields| == 1 {
      SplitCons(fields[0], [c], rest);
    } else {
      var more := fields[1..];
      assert Join(fields, [c]) + [c] + rest == fields[0] + [c] + (Join(more, [c]) + [c] + rest);
      SplitCons(fields[0], [c], Join(more, [c]) + [c] + rest);
      SplitAfterFields(more, c, rest);
      assert fields == [fields[0]] + more;
    }
  }

  /** A split has a second field exactly when the separator occurs. */
  lemma SplitMany(s: string, sep: string)
    requires sep != []
    ensures |Split(s, sep)| >= 2 <==> Contains(s, sep)
  {
  }

  lemma JoinCons(x: string, parts: seq<string>, sep: string)
    requires |parts| >= 1
    ensures Join([x] + parts, sep) == x + sep + Join(parts, sep)
  {
    assert ([x] + parts)[1..] == parts;
  }

  /** Joining the fields of a split restores the string. */
  lemma {:induction false} JoinSplit(s: string, sep: string)
    requires sep != []
    ensures Join(Split(s, sep), sep) == s
    decreases |s|
  {
    var i := Find(s, sep);
    if i >= 0 {
      var tail := s[i + |sep|..];
      var parts := Split(tail, sep);
      JoinSplit(tail, sep);
      JoinCons(s[..i], parts, sep);
      assert s[i..i + |sep|] == sep;
      assert s == s[..i] + s[i..i + |sep|] + tail;
    }
  }

  /** No field of a split contains the separator. */
  lemma {:induction false} SplitFieldsLackSep(s: string, sep: string, k: nat)
    requires sep != [] && k < |Split(s, sep)|
    ensures !Contains(Split(s, sep)[k], sep)
    decreases |s|
  {
    var i := Find(s, sep);
    if i >= 0 {
      if k == 0 {
        if Contains(s[..i], sep) {
          var j :| OccursAt(s[..i], sep, j);
          assert s[..i][j..j + |sep|] == s[j..j + |sep|];
          assert OccursAt(s, sep, j);
          assert false;
        }
      } else {
        SplitFieldsLackSep(s[i + |sep|..], sep, k - 1);
      }
    }
  }

  /** The decimal digit characters. */
  predicate IsDigit(c: char)
  {
    '0' <= c <= '9'
  }

  function DigitChar(d: int): (c: char)
    requires 0 <= d < 10
    ensures IsDigit(c)
  {
    ('0' as int + d) as char
  }

  /** The digits of a natural number, most significant first. */
  function NatDigits(n: nat): (s: string)
    ensures |s| >= 1 && forall i :: 0 <= i < |s| ==> IsDigit(s[i])
    decreases n
  {
    if n < 10 then [DigitChar(n)] else NatDigits(n / 10) + [DigitChar(n % 10)]
  }

  /** `str(n)` for an integer. */
  function Decimal(n: int): string
  {
    if n < 0 then "-" + NatDigits(-n) else NatDigits(n)
  }

  /** The value of a non-empty run of decimal digits. */
  function DigitsValue(s: string): nat
    requires forall i :: 0 <= i < |s| ==> IsDigit(s[i])
    decreases |s|
  {
    if |s| == 0 then 0
    else
      assert IsDigit(s[|s| - 1]);
      DigitsValue(s[..|s| - 1]) * 10 + (s[|s| - 1] as int - '0' as int)
  }

  /** `int(s)` for an optional sign followed by decimal digits; anything else
      raises ValueError. */
  function ParseInt(s: string): (r: Result<int>)
    ensures r.Err? ==> r.error == ValueError
  {
    var digits := if |s| > 0 && (s[0] == '-' || s[0] == '+') then s[1..] else s;
    if |digits| == 0 || exists i :: 0 <= i < |digits| && !IsDigit(digits[i]) then Err(ValueError)
    else if s[0] == '-' then Ok(-(DigitsValue(digits) as int))
    else Ok(DigitsValue(digits))
  }

  lemma {:induction false} DigitsOfNat(n: nat)
    ensures DigitsValue(NatDigits(n)) == n
    decreases n
  {
    if n >= 10 {
      DigitsOfNat(n / 10);
      var s := NatDigits(n);
      assert s[..|s| - 1] == NatDigits(n / 10);
    }
  }

  /** `int(str(n)) == n`. */
  lemma ParseDecimal(n: int)
    ensures ParseInt(Decimal(n)) == Ok(n)
  {
    var s := Decimal(n);
    if n < 0 {
      DigitsOfNat(-n);
      assert s[1..] == NatDigits(-n);
    } else {
      DigitsOfNat(n);
    }
  }
}
