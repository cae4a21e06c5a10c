/** Calendar dates as the substitution code handles them: a
    `datetime.date`, its text form `"%d.%m.%Y"` (written with `strftime`,
    read with `strptime`), and the `data-tag="dd.mm.yyyy"` attributes that
    `re.findall(r'data-tag="(\d{2}\.\d{2}\.\d{4})"', ...)` captures. */
module Dates {
  import opened Outcomes
  import opened PyStr

  /** A proleptic Gregorian date; only `ValidDate` ones are `datetime.date`s. */
  datatype Date = Date(day: int, month: int, year: int)

  predicate Leap(year: int)
  {
    year % 4 == 0 && (year % 100 != 0 || year % 400 == 0)
  }

  function DaysIn(month: int, year: int): (r: int)
    ensures 28 <= r <= 31
  {
    if month == 2 then (if Leap(year) then 29 else 28)
    else if month == 4 || month == 6 || month == 9 || month == 11 then 30
    else 31
  }

  /** The range `datetime.date` accepts: years 1 to 9999, real days only. */
  predicate ValidDate(d: Date)
  {
    1 <= d.year <= 9999 && 1 <= d.month <= 12 && 1 <= d.day <= DaysIn(d.month, d.year)
  }

  function Pow10(k: nat): (r: nat)
    ensures r >= 1
  {
    if k == 0 then 1 else 10 * Pow10(k - 1)
  }

  /** `n` written with exactly `width` digits, zero-padded on the left. */
  function Padded(n: nat, width: nat): (s: string)
    ensures |s| == width && forall i :: 0 <= i < |s| ==> IsDigit(s[i])
  {
    if width == 0 then "" else Padded(n / 10, width - 1) + [DigitChar(n % 10)]
  }

  /** A number that fits reads back from its padded digits. */
  lemma {:induction false} PaddedValue(n: nat, width: nat)
    requires n < Pow10(width)
    ensures DigitsValue(Padded(n, width)) == n
  {
    if width > 0 {
      assert n / 10 < Pow10(width - 1);
      PaddedValue(n / 10, width - 1);
      var s := Padded(n, width);
      assert s[..|s| - 1] == Padded(n / 10, width - 1);
    }
  }

  lemma DivMod10(a: nat, c: int)
    requires 0 <= c < 10
    ensures (a * 10 + c) / 10 == a && (a * 10 + c) % 10 == c
  {
  }

  /** Digits are the padded form of their own value, leading zeros included. */
  lemma {:induction false} PaddedDigits(t: string)
    requires forall i :: 0 <= i < |t| ==> IsDigit(t[i])
    ensures Padded(DigitsValue(t), |t|) == t
    decreases |t|
  {
    if |t| > 0 {
      var init := t[..|t| - 1];
      var last := t[|t| - 1];
      assert forall i :: 0 <= i < |init| ==> IsDigit(init[i]);
      PaddedDigits(init);
      var c := last as int - '0' as int;
      assert DigitsValue(t) == DigitsValue(init) * 10 + c;
      DivMod10(DigitsValue(init), c);
      assert DigitChar(c) == last;
      assert t == init + [last];
    }
  }

  /** The shape `\d{2}\.\d{2}\.\d{4}` (ASCII digits). */
  predicate DateShape(s: string)
  {
    |s| == 10 && s[2] == '.' && s[5] == '.'
    && forall i :: 0 <= i < 10 && i != 2 && i != 5 ==> IsDigit(s[i])
  }

  /** `date.strftime("%d.%m.%Y")`: day and month with two digits, the year
      with four. */
  function FormatDate(d: Date): (s: string)
    requires ValidDate(d)
    ensures DateShape(s)
  {
    Padded(d.day, 2) + "." + Padded(d.month, 2) + "." + Padded(d.year, 4)
  }

  /** `datetime.strptime(s, "%d.%m.%Y").date()` on the two-digit form: the
      fields are read as numbers, and a text of another shape or a date that
      does not exist raises ValueError. */
  function ParseDate(s: string): (r: Result<Date>)
    ensures r.Err? ==> r.error == ValueError
    ensures r.Ok? ==> ValidDate(r.value) && DateShape(s)
  {
    if !DateShape(s) then Err(ValueError)
    else
      assert forall i :: 0 <= i < 2 ==> IsDigit(s[0..2][i]) && IsDigit(s[3..5][i]);
      assert forall i :: 0 <= i < 4 ==> IsDigit(s[6..10][i]);
      var d := Date(DigitsValue(s[0..2]), DigitsValue(s[3..5]), DigitsValue(s[6..10]));
      if ValidDate(d) then Ok(d) else Err(ValueError)
  }

  /** `strptime` reads back what `strftime` wrote. */
  lemma ParseFormat(d: Date)
    requires ValidDate(d)
    ensures ParseDate(FormatDate(d)) == Ok(d)
  {
    var s := FormatDate(d);
    assert Pow10(2) == 100 && Pow10(4) == 10000;
    PaddedValue(d.day, 2);
    PaddedValue(d.month, 2);
    PaddedValue(d.year, 4);
    assert s[0..2] == Padded(d.day, 2);
    assert s[3..5] == Padded(d.month, 2);
    assert s[6..10] == Padded(d.year, 4);
  }

  /** A text `strptime` accepts is exactly what `strftime` writes for its
      date: the two-digit form has one spelling per date. */
  lemma FormatParse(s: string)
    requires ParseDate(s).Ok?
    ensures FormatDate(ParseDate(s).value) == s
  {
    assert forall i :: 0 <= i < 2 ==> IsDigit(s[0..2][i]) && IsDigit(s[3..5][i]);
    assert forall i :: 0 <= i < 4 ==> IsDigit(s[6..10][i]);
    PaddedDigits(s[0..2]);
    PaddedDigits(s[3..5]);
    PaddedDigits(s[6..10]);
    assert s == s[0..2] + "." + s[3..5] + "." + s[6..10];
  }

  /** The value of two digits. */
  lemma TwoDigits(s: string)
    requires |s| == 2 && IsDigit(s[0]) && IsDigit(s[1])
    ensures DigitsValue(s) == (s[0] as int - '0' as int) * 10 + (s[1] as int - '0' as int)
  {
    var first := s[..1];
    assert first[0] == s[0] && first[..0] == [];
    assert DigitsValue(first) == s[0] as int - '0' as int;
    assert DigitsValue(s) == DigitsValue(first) * 10 + (s[1] as int - '0' as int);
  }

  /** A day that does not exist in its month is refused. */
  lemma NoThirtiethOfFebruary(year: nat)
    requires year < 10000
    ensures ParseDate("30.02." + Padded(year, 4)).Err?
  {
    var s := "30.02." + Padded(year, 4);
    assert DateShape(s) by {
      assert forall i :: 6 <= i < 10 ==> s[i] == Padded(year, 4)[i - 6];
    }
    assert s[0..2] == "30" && s[3..5] == "02";
    TwoDigits("30");
    TwoDigits("02");
  }

  /** The opening of the attribute, `data-tag="`. */
  const TagOpen: string := "data-tag=\""

  /** A match of `data-tag="(\d{2}\.\d{2}\.\d{4})"` starting at `i`: 21
      characters, the capture being the ten in the middle. */
  predicate TagAt(text: string, i: nat)
  {
    i + 21 <= |text| && text[i..i + 10] == TagOpen && DateShape(text[i + 10..i + 20]) && text[i + 20] == '"'
  }

  /** The captures of `re.findall` from position `i` on: matches are
      searched left to right and the search resumes after each match. */
  function TagsFrom(text: string, i: nat): (r: seq<string>)
    requires i <= |text|
    ensures forall k :: 0 <= k < |r| ==> DateShape(r[k])
    ensures forall k :: 0 <= k < |r| ==> exists j :: i <= j && TagAt(text, j) && r[k] == text[j + 10..j + 20]
    decreases |text| - i
  {
    if i + 21 > |text| then []
    else if TagAt(text, i) then [text[i + 10..i + 20]] + TagsFrom(text, i + 21)
    else TagsFrom(text, i + 1)
  }

  /** `re.findall(r'data-tag="(\d{2}\.\d{2}\.\d{4})"', text)`. */
  function Tags(text: string): (r: seq<string>)
    ensures forall k :: 0 <= k < |r| ==> DateShape(r[k])
  {
    TagsFrom(text, 0)
  }

  /** No match starts strictly inside another: the only `d` of a match is
      its first character. */
  lemma TagsDoNotOverlap(text: string, i: nat, j: nat)
    requires TagAt(text, i) && TagAt(text, j) && i < j
    ensures i + 21 <= j
  {
    assert text[j] == 'd' by {
      assert text[j..j + 10][0] == TagOpen[0];
    }
  }

  /** Every match in the text is captured, wherever it is. */
  lemma {:induction false} TagCapturedFrom(text: string, i: nat, j: nat)
    requires i <= j && TagAt(text, j)
    ensures text[j + 10..j + 20] in TagsFrom(text, i)
    decreases j - i
  {
    if i < j {
      if TagAt(text, i) {
        TagsDoNotOverlap(text, i, j);
        TagCapturedFrom(text, i + 21, j);
      } else {
        TagCapturedFrom(text, i + 1, j);
      }
    }
  }

  /** A date string is captured exactly when it is the date of some match. */
  lemma TagCaptured(text: string, s: string)
    ensures s in Tags(text) <==> exists j :: TagAt(text, j) && s == text[j + 10..j + 20]
  {
    if j :| TagAt(text, j) && s == text[j + 10..j + 20] {
      TagCapturedFrom(text, 0, j);
    }
  }
}
