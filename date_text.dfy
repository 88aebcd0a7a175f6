/** Dates as text. Two readers and one writer are modelled:
    - `date.isoformat()` and `date.fromisoformat()`, the ISO 8601 calendar date in
      extended format `YYYY-MM-DD` (ISO 8601:2004, section 4.1.2);
    - `datetime.strptime(s, "%Y-%m-%d")` and `datetime.strptime(s, "%m/%d")`, which match
      the text against CPython's `_strptime` field patterns (a month is `1[0-2]`, `0[1-9]`
      or `[1-9]`; a day is `3[01]`, `[12]\d`, `0[1-9]`, `[1-9]` or ` [1-9]`, the first
      alternative that matches being taken), reject unconverted trailing text and then
      build the date, which fails for a day the month does not have. Without a year in
      the format the year is 1900, which is not a leap year. */
module DateText {
  import opened PyValues
  import opened CivilDate

  predicate IsDigit(c: char) {
    '0' <= c <= '9'
  }

  function DigitValue(c: char): (n: int)
    requires IsDigit(c)
    ensures 0 <= n <= 9
  {
    c as int - '0' as int
  }

  function DigitChar(n: int): (c: char)
    requires 0 <= n <= 9
    ensures IsDigit(c) && DigitValue(c) == n
  {
    ('0' as int + n) as char
  }

  /** The Python range of years, `MINYEAR` to `MAXYEAR`. */
  predicate InPythonRange(d: Date) {
    1 <= d.year <= 9999
  }

  function Pad2(n: int): (s: string)
    requires 0 <= n <= 99
    ensures |s| == 2
  {
    [DigitChar(n / 10), DigitChar(n % 10)]
  }

  function Pad4(n: int): (s: string)
    requires 0 <= n <= 9999
    ensures |s| == 4
  {
    Pad2(n / 100) + Pad2(n % 100)
  }

  /** `date.isoformat()`: `YYYY-MM-DD`, every field zero-padded. */
  function FormatIso(d: ValidDate): (s: string)
    requires InPythonRange(d)
    ensures |s| == 10 && s[4] == '-' && s[7] == '-'
  {
    Pad4(d.year) + "-" + Pad2(d.month) + "-" + Pad2(d.day)
  }

  /** The number spelt by the digits s[i..j]. */
  function DigitsValue(s: string, i: nat, j: nat): (n: int)
    requires i <= j <= |s|
    requires forall k :: i <= k < j ==> IsDigit(s[k])
    ensures n >= 0
    decreases j - i
  {
    if i == j then 0 else DigitsValue(s, i, j - 1) * 10 + DigitValue(s[j - 1])
  }

  predicate AllDigits(s: string, i: nat, j: nat)
    requires i <= j <= |s|
  {
    forall k :: i <= k < j ==> IsDigit(s[k])
  }

  /** Year, month and day of `YYYY-MM-DD`, before the calendar check. */
  predicate IsoShape(s: string) {
    |s| == 10 && s[4] == '-' && s[7] == '-'
    && AllDigits(s, 0, 4) && AllDigits(s, 5, 7) && AllDigits(s, 8, 10)
  }

  /** `date.fromisoformat(s)`: None where Python raises ValueError. */
  function ParseIso(s: string): (r: Option<ValidDate>)
    ensures r.Some? ==> IsoShape(s) && InPythonRange(r.value)
  {
    if !IsoShape(s) then None
    else
      var d := Date(DigitsValue(s, 0, 4), DigitsValue(s, 5, 7), DigitsValue(s, 8, 10));
      if d.Valid() && d.year >= 1 then Some(d) else None
  }

  lemma DivMod10(q: int, r: int)
    requires 0 <= r < 10
    ensures (10 * q + r) / 10 == q && (10 * q + r) % 10 == r
  {
  }

  lemma DivMod100(q: int, r: int)
    requires 0 <= r < 100
    ensures (100 * q + r) / 100 == q && (100 * q + r) % 100 == r
  {
  }

  /** Two digits spell a number below 100. */
  lemma DigitsValueTwo(s: string, i: nat)
    requires i + 2 <= |s| && AllDigits(s, i, i + 2)
    ensures DigitsValue(s, i, i + 2) == 10 * DigitValue(s[i]) + DigitValue(s[i + 1])
    ensures DigitsValue(s, i, i + 2) <= 99
  {
    assert DigitsValue(s, i, i + 1) == DigitValue(s[i]);
  }

  /** Four digits read as two pairs. */
  lemma DigitsValueFour(s: string, i: nat)
    requires i + 4 <= |s| && AllDigits(s, i, i + 4)
    ensures DigitsValue(s, i, i + 4) == DigitsValue(s, i, i + 2) * 100 + DigitsValue(s, i + 2, i + 4)
    ensures DigitsValue(s, i, i + 4) <= 9999
  {
    DigitsValueTwo(s, i);
    DigitsValueTwo(s, i + 2);
    assert DigitsValue(s, i, i + 3) == DigitsValue(s, i, i + 2) * 10 + DigitValue(s[i + 2]);
  }

  lemma DigitsValueShift(s: string, t: string, i: nat, j: nat, off: nat)
    requires i <= j <= |s| && j + off <= |t|
    requires forall k :: i <= k < j ==> t[k + off] == s[k]
    requires AllDigits(s, i, j)
    ensures AllDigits(t, i + off, j + off)
    ensures DigitsValue(t, i + off, j + off) == DigitsValue(s, i, j)
    decreases j - i
  {
    if i < j {
      DigitsValueShift(s, t, i, j - 1, off);
      assert t[j - 1 + off] == s[j - 1];
    }
  }

  lemma Pad2Value(n: int)
    requires 0 <= n <= 99
    ensures AllDigits(Pad2(n), 0, 2) && DigitsValue(Pad2(n), 0, 2) == n
  {
  }

  lemma Pad4Value(n: int)
    requires 0 <= n <= 9999
    ensures AllDigits(Pad4(n), 0, 4) && DigitsValue(Pad4(n), 0, 4) == n
  {
    var s := Pad4(n);
    Pad2Value(n / 100);
    Pad2Value(n % 100);
    DigitsValueShift(Pad2(n / 100), s, 0, 2, 0);
    DigitsValueShift(Pad2(n % 100), s, 0, 2, 2);
    DigitsValueFour(s, 0);
  }

  /** Pad2 of the number spelt by two digits gives those digits back. */
  lemma Pad2Digits(s: string, i: nat)
    requires i + 2 <= |s| && AllDigits(s, i, i + 2)
    ensures DigitsValue(s, i, i + 2) <= 99 && Pad2(DigitsValue(s, i, i + 2)) == s[i..i + 2]
  {
    DigitsValueTwo(s, i);
    DivMod10(DigitValue(s[i]), DigitValue(s[i + 1]));
  }

  lemma Pad4Digits(s: string, i: nat)
    requires i + 4 <= |s| && AllDigits(s, i, i + 4)
    ensures DigitsValue(s, i, i + 4) <= 9999 && Pad4(DigitsValue(s, i, i + 4)) == s[i..i + 4]
  {
    DigitsValueFour(s, i);
    Pad2Digits(s, i);
    Pad2Digits(s, i + 2);
    DivMod100(DigitsValue(s, i, i + 2), DigitsValue(s, i + 2, i + 4));
    assert s[i..i + 4] == s[i..i + 2] + s[i + 2..i + 4];
  }

  /** Reading back what `isoformat` wrote gives the same date. */
  lemma ParseFormatIso(d: ValidDate)
    requires InPythonRange(d)
    ensures ParseIso(FormatIso(d)) == Some(d)
  {
    var s := FormatIso(d);
    Pad4Value(d.year);
    Pad2Value(d.month);
    Pad2Value(d.day);
    DigitsValueShift(Pad4(d.year), s, 0, 4, 0);
    DigitsValueShift(Pad2(d.month), s, 0, 2, 5);
    DigitsValueShift(Pad2(d.day), s, 0, 2, 8);
  }

  /** Every text `fromisoformat` accepts is exactly what `isoformat` writes for its date. */
  lemma FormatParseIso(s: string)
    requires ParseIso(s).Some?
    ensures FormatIso(ParseIso(s).value) == s
  {
    var d := ParseIso(s).value;
    Pad4Digits(s, 0);
    Pad2Digits(s, 5);
    Pad2Digits(s, 8);
    assert s == s[0..4] + s[4..5] + s[5..7] + s[7..8] + s[8..10];
  }

  /** A field read by a strptime directive: its value and the position after it. */
  datatype Field = Field(value: int, next: nat)

  /** The `%m` pattern `1[0-2]|0[1-9]|[1-9]` at position i. */
  function MonthField(s: string, i: nat): (r: Option<Field>)
    ensures r.Some? ==> 1 <= r.value.value <= 12 && i < r.value.next <= |s|
  {
    if i + 1 < |s| && s[i] == '1' && '0' <= s[i + 1] <= '2' then Some(Field(10 + DigitValue(s[i + 1]), i + 2))
    else if i + 1 < |s| && s[i] == '0' && '1' <= s[i + 1] <= '9' then Some(Field(DigitValue(s[i + 1]), i + 2))
    else if i < |s| && '1' <= s[i] <= '9' then Some(Field(DigitValue(s[i]), i + 1))
    else None
  }

  /** The `%d` pattern `3[01]|[12]\d|0[1-9]|[1-9]| [1-9]` at position i. */
  function DayField(s: string, i: nat): (r: Option<Field>)
    ensures r.Some? ==> 1 <= r.value.value <= 31 && i < r.value.next <= |s|
  {
    if i + 1 < |s| && s[i] == '3' && '0' <= s[i + 1] <= '1' then Some(Field(30 + DigitValue(s[i + 1]), i + 2))
    else if i + 1 < |s| && '1' <= s[i] <= '2' && IsDigit(s[i + 1]) then Some(Field(DigitValue(s[i]) * 10 + DigitValue(s[i + 1]), i + 2))
    else if i + 1 < |s| && s[i] == '0' && '1' <= s[i + 1] <= '9' then Some(Field(DigitValue(s[i + 1]), i + 2))
    else if i < |s| && '1' <= s[i] <= '9' then Some(Field(DigitValue(s[i]), i + 1))
    else if i + 1 < |s| && s[i] == ' ' && '1' <= s[i + 1] <= '9' then Some(Field(DigitValue(s[i + 1]), i + 2))
    else None
  }

  /** `datetime.strptime(s, "%Y-%m-%d").date()`: None where Python raises ValueError. */
  function StrptimeYmd(s: string): (r: Option<ValidDate>)
    ensures r.Some? ==> InPythonRange(r.value)
  {
    if |s| < 4 || !AllDigits(s, 0, 4) || |s| == 4 || s[4] != '-' then None
    else
      var year := DigitsValue(s, 0, 4);
      match MonthField(s, 5)
      case None => None
      case Some(m) =>
        if m.next >= |s| || s[m.next] != '-' then None
        else match DayField(s, m.next + 1)
          case None => None
          case Some(dd) =>
            var d := Date(year, m.value, dd.value);
            if dd.next == |s| && year >= 1 && d.Valid() then Some(d) else None
  }

  /** `datetime.strptime(s, "%m/%d").date()`: the year is 1900; None where Python raises ValueError. */
  function StrptimeMd(s: string): (r: Option<ValidDate>)
    ensures r.Some? ==> r.value.year == 1900
  {
    match MonthField(s, 0)
    case None => None
    case Some(m) =>
      if m.next >= |s| || s[m.next] != '/' then None
      else match DayField(s, m.next + 1)
        case None => None
        case Some(dd) =>
          var d := Date(1900, m.value, dd.value);
          if dd.next == |s| && d.Valid() then Some(d) else None
  }

  /** strptime with "%Y-%m-%d" accepts every ISO 8601 calendar date, with the same reading. */
  lemma StrptimeAcceptsIso(s: string)
    requires ParseIso(s).Some?
    ensures StrptimeYmd(s) == ParseIso(s)
  {
    var d := ParseIso(s).value;
    assert d.month == DigitValue(s[5]) * 10 + DigitValue(s[6]);
    assert d.day == DigitValue(s[8]) * 10 + DigitValue(s[9]);
  }

  /** The month and day that "%m/%d" reads fall in a valid date of every year,
      since 1900 allows no February 29th. */
  lemma MonthDayValidEveryYear(s: string, y: int)
    requires StrptimeMd(s).Some?
    ensures Date(y, StrptimeMd(s).value.month, StrptimeMd(s).value.day).Valid()
    ensures !(StrptimeMd(s).value.month == 2 && StrptimeMd(s).value.day == 29)
  {
  }
}
