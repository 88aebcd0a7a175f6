/** The configuration wizard of the garbage-collection integration: the transcoders between
    comma-separated text, per-item check boxes and lists, the date validators, the controller
    that walks the four steps and accumulates the configuration record, and the routing from
    the chosen frequency to the next step.

    The field table, schema compilation, voluptuous validation and the defaults store of the
    `config_definition` module are not part of this model; they enter as the parameters of a
    `Definition`. */
module ConfigFlow {
  import opened PyValues
  import opened CivilDate
  import opened DateText

  /** A Python dictionary with string keys (form input, configuration record, defaults). */
  type Dict = map<string, Value>

  // Configuration keys.
  const NAME := "name"
  const ENTITIES := "entities"
  const FREQUENCY := "frequency"
  const INCLUDE_DATES := "include_dates"
  const EXCLUDE_DATES := "exclude_dates"
  const FIRST_DATE := "first_date"
  const ICON_NORMAL := "icon_normal"
  const ICON_TODAY := "icon_today"
  const ICON_TOMORROW := "icon_tomorrow"
  const EXPIRE_AFTER := "expire_after"
  const COLLECTION_DAYS := "collection_days"
  const FORCE_WEEK_NUMBERS := "force_week_numbers"
  const WEEK_ORDER_NUMBER := "week_order_number"
  const WEEKDAY_ORDER_NUMBER := "weekday_order_number"
  const HOLIDAY_POP_NAMED := "holiday_pop_named"
  /** The single key of `errors`. */
  const BASE := "base"

  /** Home Assistant's `WEEKDAYS`. */
  const WEEKDAYS: seq<string> := ["mon", "tue", "wed", "thu", "fri", "sat", "sun"]

  /* ----------------------------------------------------------------------------------
     Text helpers: Python's `in` on strings, `str.split(",")` and `str.strip("'\" ")`.
     ---------------------------------------------------------------------------------- */

  /** `t in s` for strings. */
  predicate Occurs(t: string, s: string)
    decreases |s|
  {
    t <= s || (|s| > 0 && Occurs(t, s[1..]))
  }

  /** `s.count(c)`: the number of occurrences of `c` in `s`. */
  function CountChar(s: string, c: char): (n: nat)
    ensures n == 0 <==> c !in s
  {
    if s == [] then 0 else (if s[0] == c then 1 else 0) + CountChar(s[1..], c)
  }

  /** `s.split(",")`. */
  function Split(s: string): (parts: seq<string>)
    ensures |parts| >= 1
  {
    if s == [] then [""]
    else
      var rest := Split(s[1..]);
      if s[0] == ',' then [""] + rest else [[s[0]] + rest[0]] + rest[1..]
  }

  /** `",".join(parts)`. */
  function Join(parts: seq<string>): string
    requires |parts| >= 1
  {
    if |parts| == 1 then parts[0] else parts[0] + "," + Join(parts[1..])
  }

  lemma {:induction false} SplitCount(s: string)
    ensures |Split(s)| == CountChar(s, ',') + 1
    ensures forall k :: 0 <= k < |Split(s)| ==> CountChar(Split(s)[k], ',') == 0
  {
    if s != [] {
      SplitCount(s[1..]);
      var rest := Split(s[1..]);
      if s[0] != ',' {
        assert CountChar([s[0]] + rest[0], ',') == CountChar(rest[0], ',') by {
          assert ([s[0]] + rest[0])[1..] == rest[0];
        }
      }
    }
  }

  /** Joining the pieces with commas gives the text back. */
  lemma {:induction false} SplitJoin(s: string)
    ensures Join(Split(s)) == s
  {
    if s != [] {
      SplitJoin(s[1..]);
      var rest := Split(s[1..]);
      if s[0] == ',' {
        assert Split(s) == [""] + rest;
        assert Join(Split(s)) == "" + "," + Join(rest);
      } else if |rest| == 1 {
        assert Join(Split(s)) == [s[0]] + rest[0];
      } else {
        assert Split(s)[1..] == rest[1..];
        assert Join(rest) == rest[0] + "," + Join(rest[1..]);
        assert Join(Split(s)) == ([s[0]] + rest[0]) + "," + Join(rest[1..]);
      }
    }
  }

  /** The characters `strip("'\" ")` removes. */
  predicate IsStripChar(c: char) {
    c == '\'' || c == '"' || c == ' '
  }

  predicate AllStripChars(s: string) {
    forall k :: 0 <= k < |s| ==> IsStripChar(s[k])
  }

  function StripLeft(s: string): (r: string)
    ensures |r| <= |s| && r == s[|s| - |r|..]
    ensures AllStripChars(s[..|s| - |r|])
    ensures r == [] || !IsStripChar(r[0])
  {
    if |s| > 0 && IsStripChar(s[0]) then
      var r := StripLeft(s[1..]);
      assert s[..|s| - |r|] == [s[0]] + s[1..][..|s[1..]| - |r|];
      r
    else s
  }

  function StripRight(s: string): (r: string)
    ensures |r| <= |s| && r == s[..|r|]
    ensures AllStripChars(s[|r|..])
    ensures r == [] || !IsStripChar(r[|r| - 1])
  {
    if |s| > 0 && IsStripChar(s[|s| - 1]) then
      var r := StripRight(s[..|s| - 1]);
      assert s[|r|..] == s[..|s| - 1][|r|..] + [s[|s| - 1]];
      r
    else s
  }

  /** `s.strip("'\" ")`: the longest middle part of s that neither starts nor ends with a
      quote or a space; everything cut off on either side is quotes and spaces. */
  function Strip(s: string): (r: string)
    ensures r == [] || (!IsStripChar(r[0]) && !IsStripChar(r[|r| - 1]))
    ensures exists i, j :: 0 <= i <= j <= |s| && r == s[i..j] && AllStripChars(s[..i]) && AllStripChars(s[j..])
  {
    var l := StripLeft(s);
    var r := StripRight(l);
    var i := |s| - |l|;
    var j := i + |r|;
    assert r == s[i..j];
    assert s[j..] == l[|r|..];
    r
  }

  /** `string_to_list`: a list is returned as it is, `None` and `""` give the empty list, any
      other text gives its comma-separated pieces, each stripped of quotes and spaces. A
      boolean or a number has no `split` and raises AttributeError. */
  function StringToList(v: Value): (r: Outcome<Value>)
    ensures v.VList? ==> r == Ok(v)
    ensures v == VNone || v == VStr("") ==> r == Ok(VList([]))
    ensures v.VBool? || v.VInt? ==> r == Raised(AttributeError)
    ensures v.VStr? && v.s != "" ==> r.Ok? && r.value.VList? && |r.value.items| == CountChar(v.s, ',') + 1
  {
    match v
    case VList(_) => Ok(v)
    case VNone => Ok(VList([]))
    case VStr(s) =>
      if s == "" then Ok(VList([]))
      else
        SplitCount(s);
        var parts := Split(s);
        Ok(VList(seq(|parts|, k requires 0 <= k < |parts| => VStr(Strip(parts[k])))))
    case _ => Raised(AttributeError)
  }

  /** Each element of a converted text is a stripped comma-free piece, and the pieces are
      the text's comma-separated fields in order. */
  lemma StringToListPieces(s: string)
    requires s != ""
    ensures StringToList(VStr(s)).Ok?
    ensures var items := StringToList(VStr(s)).value.items;
      |items| == |Split(s)| && Join(Split(s)) == s &&
      forall k :: 0 <= k < |items| ==>
        items[k] == VStr(Strip(Split(s)[k])) && CountChar(Split(s)[k], ',') == 0
  {
    SplitCount(s);
    SplitJoin(s);
  }

  /* ----------------------------------------------------------------------------------
     Date validators.
     ---------------------------------------------------------------------------------- */

  /** `is_date`: the empty text, or text that `strptime(_, "%Y-%m-%d")` accepts. A value that
      is not a string makes strptime raise TypeError, which is not caught. */
  function IsDate(v: Value): (r: Outcome<bool>)
    ensures v == VStr("") ==> r == Ok(true)
    ensures r == Ok(true) <==> v == VStr("") || (v.VStr? && StrptimeYmd(v.s).Some?)
    ensures r.Raised? <==> !v.VStr?
  {
    match v
    case VStr(s) => Ok(s == "" || StrptimeYmd(s).Some?)
    case _ => Raised(TypeError)
  }

  /** `is_month_day`: text that `strptime(_, "%m/%d")` accepts. */
  function IsMonthDay(v: Value): (r: Outcome<bool>)
    ensures r == Ok(true) ==> v.VStr? && StrptimeMd(v.s).Some?
    ensures v.VStr? ==> (r == Ok(true) <==> StrptimeMd(v.s).Some?)
    ensures r.Raised? <==> !v.VStr?
  {
    match v
    case VStr(s) => Ok(StrptimeMd(s).Some?)
    case _ => Raised(TypeError)
  }

  /** Every date `date.isoformat()` writes passes `is_date`. */
  lemma IsDateAcceptsIsoText(d: ValidDate)
    requires InPythonRange(d)
    ensures IsDate(VStr(FormatIso(d))) == Ok(true)
  {
    ParseFormatIso(d);
    StrptimeAcceptsIso(FormatIso(d));
  }

  /** A month and day accepted by `is_month_day` is a date in every year; in particular the
      29th of February is rejected, because strptime checks it against the year 1900. */
  lemma MonthDayEveryYear(v: Value, y: int)
    requires IsMonthDay(v) == Ok(true)
    ensures Date(y, StrptimeMd(v.s).value.month, StrptimeMd(v.s).value.day).Valid()
    ensures StrptimeMd(v.s).value.month == 2 ==> StrptimeMd(v.s).value.day <= 28
  {
    MonthDayValidEveryYear(v.s, y);
  }

  lemma LeapDayIsNoMonthDay()
    ensures IsMonthDay(VStr("02/29")) == Ok(false)
    ensures IsMonthDay(VStr("2/28")) == Ok(true)
  {
    assert MonthField("02/29", 0) == Some(Field(2, 2));
    assert DayField("02/29", 3) == Some(Field(29, 5));
    assert MonthField("2/28", 0) == Some(Field(2, 1));
    assert DayField("2/28", 2) == Some(Field(28, 4));
  }

  /** `for x in v`: the elements of a list, the one-character strings of a text; anything
      else is not iterable. */
  function Elements(v: Value): (r: Outcome<seq<Value>>)
    ensures v.VList? ==> r == Ok(v.items)
    ensures v.VStr? ==> r.Ok? && |r.value| == |v.s|
    ensures r.Raised? <==> !(v.VList? || v.VStr?)
  {
    match v
    case VList(items) => Ok(items)
    case VStr(s) => Ok(seq(|s|, k requires 0 <= k < |s| => VStr([s[k]])))
    case _ => Raised(TypeError)
  }

  /** What `is_dates` promises: true for the empty list; otherwise TypeError if some element
      is not a string, and else whether every element passes `is_date`. */
  function DatesValid(dates: Value): Outcome<bool> {
    if dates == VList([]) then Ok(true)
    else match Elements(dates)
      case Raised(e) => Raised(e)
      case Ok(xs) =>
        if exists k :: 0 <= k < |xs| && IsDate(xs[k]).Raised? then Raised(TypeError)
        else Ok(forall k :: 0 <= k < |xs| ==> IsDate(xs[k]) == Ok(true))
  }

  /** `is_dates`: the loop over the elements, keeping a running `check`. */
  method IsDates(dates: Value) returns (r: Outcome<bool>)
    ensures r == DatesValid(dates)
  {
    if dates == VList([]) {
      return Ok(true);
    }
    var xs :- Elements(dates);
    var check := true;
    for i := 0 to |xs|
      invariant forall k :: 0 <= k < i ==> IsDate(xs[k]).Ok?
      invariant check <==> forall k :: 0 <= k < i ==> IsDate(xs[k]) == Ok(true)
    {
      var ok :- IsDate(xs[i]);
      if !ok {
        check := false;
      }
    }
    return Ok(check);
  }

  /** A list of dates passes `is_dates` exactly when each of its elements passes `is_date`. */
  lemma DatesValidList(items: seq<Value>)
    ensures DatesValid(VList(items)) == Ok(true) <==> forall k :: 0 <= k < |items| ==> IsDate(items[k]) == Ok(true)
  {
  }

  /* ----------------------------------------------------------------------------------
     Check boxes to list: `days_to_list` and `weekdays_to_list`.
     ---------------------------------------------------------------------------------- */

  predicate DistinctStrings(keys: seq<string>) {
    forall i, j :: 0 <= i < j < |keys| ==> keys[i] != keys[j]
  }

  /** The check-box keys of the collection days, `collection_days_mon` to `collection_days_sun`. */
  function DayFlagKeys(): (keys: seq<string>)
    ensures |keys| == 7 && DistinctStrings(keys)
    ensures forall k :: 0 <= k < 7 ==> keys[k] != COLLECTION_DAYS
  {
    var keys := seq(7, i requires 0 <= i < 7 => COLLECTION_DAYS + "_" + WEEKDAYS[i]);
    assert DistinctStrings(keys) by {
      forall i, j | 0 <= i < j < 7
        ensures keys[i] != keys[j]
      {
        assert keys[i][16..] == WEEKDAYS[i];
        assert keys[j][16..] == WEEKDAYS[j];
      }
    }
    keys
  }

  /** The check-box keys of an ordinal list, `<prefix>_1` to `<prefix>_5`; each ends in its digit. */
  function OrdinalFlagKeys(prefix: string): (keys: seq<string>)
    ensures |keys| == 5 && DistinctStrings(keys)
    ensures forall k :: 0 <= k < 5 ==> |keys[k]| == |prefix| + 2 && keys[k] != prefix && IsDigit(keys[k][|keys[k]| - 1])
  {
    var keys := seq(5, i requires 0 <= i < 5 => prefix + "_" + [DigitChar(i + 1)]);
    assert DistinctStrings(keys) by {
      forall i, j | 0 <= i < j < 5
        ensures keys[i] != keys[j]
      {
        assert keys[i][|prefix| + 1] == DigitChar(i + 1);
        assert keys[j][|prefix| + 1] == DigitChar(j + 1);
      }
    }
    assert forall k :: 0 <= k < 5 ==> |keys[k]| == |prefix| + 2;
    keys
  }

  /** The list items the day check boxes stand for. */
  function DayItems(): (items: seq<Value>)
    ensures |items| == 7
  {
    seq(7, i requires 0 <= i < 7 => VStr(WEEKDAYS[i]))
  }

  /** The list items the ordinal check boxes stand for, 1 to 5. */
  function OrdinalItems(): (items: seq<Value>)
    ensures |items| == 5
  {
    seq(5, i requires 0 <= i < 5 => VInt(i + 1))
  }

  /** The items among the first n whose check box is ticked, in order. */
  function Selected(src: Dict, keys: seq<string>, items: seq<Value>, n: nat): (r: seq<Value>)
    requires n <= |keys| == |items|
    requires forall k :: 0 <= k < n ==> keys[k] in src
    ensures |r| <= n
  {
    if n == 0 then []
    else Selected(src, keys, items, n - 1) + (if Truthy(src[keys[n - 1]]) then [items[n - 1]] else [])
  }

  /** What `days_to_list` and `weekdays_to_list` promise for a list key, its check-box keys and
      the items they stand for: if the list key is already there, nothing changes; a missing
      check box raises KeyError; otherwise every check box is removed and the list holds the
      items whose box is ticked. */
  function FlagsToList(src: Dict, listKey: string, keys: seq<string>, items: seq<Value>): Outcome<Dict>
    requires |keys| == |items|
  {
    if listKey in src then Ok(src)
    else if exists k :: 0 <= k < |keys| && keys[k] !in src then Raised(KeyError)
    else Ok((src - set k | k in keys)[listKey := VList(Selected(src, keys, items, |keys|))])
  }

  /** The loop shared by `days_to_list` and `weekdays_to_list`. */
  method FlagsToListLoop(src: Dict, listKey: string, keys: seq<string>, items: seq<Value>) returns (r: Outcome<Dict>)
    requires |keys| == |items| && DistinctStrings(keys)
    requires forall k :: 0 <= k < |keys| ==> keys[k] != listKey
    ensures r == FlagsToList(src, listKey, keys, items)
  {
    if listKey in src {
      return Ok(src);
    }
    var d := src[listKey := VList([])];
    var list: seq<Value> := [];
    for i := 0 to |keys|
      invariant forall k :: 0 <= k < i ==> keys[k] in src
      invariant list == Selected(src, keys, items, i)
      invariant d == (src - set k | k in keys[..i])[listKey := VList(list)]
    {
      if keys[i] !in d {
        assert keys[i] !in src by {
          assert keys[i] !in keys[..i];
        }
        return Raised(KeyError);
      }
      assert d[keys[i]] == src[keys[i]] by {
        assert keys[i] !in keys[..i];
      }
      if Truthy(d[keys[i]]) {
        list := list + [items[i]];
        d := d[listKey := VList(list)];
      }
      d := d - {keys[i]};
      assert keys[..i + 1] == keys[..i] + [keys[i]];
    }
    assert keys[..|keys|] == keys;
    return Ok(d);
  }

  /** `days_to_list(src)`. */
  method DaysToList(src: Dict) returns (r: Outcome<Dict>)
    ensures r == FlagsToList(src, COLLECTION_DAYS, DayFlagKeys(), DayItems())
  {
    r := FlagsToListLoop(src, COLLECTION_DAYS, DayFlagKeys(), DayItems());
  }

  /** `weekdays_to_list(src, prefix)`. */
  method WeekdaysToList(src: Dict, prefix: string) returns (r: Outcome<Dict>)
    ensures r == FlagsToList(src, prefix, OrdinalFlagKeys(prefix), OrdinalItems())
  {
    r := FlagsToListLoop(src, prefix, OrdinalFlagKeys(prefix), OrdinalItems());
  }

  /** An item ends up in the list exactly when its check box was ticked. */
  lemma {:induction false} SelectedMembers(src: Dict, keys: seq<string>, items: seq<Value>, n: nat, i: nat)
    requires n <= |keys| == |items|
    requires forall k :: 0 <= k < n ==> keys[k] in src
    requires forall a, b :: 0 <= a < b < |items| ==> items[a] != items[b]
    requires i < n
    ensures items[i] in Selected(src, keys, items, n) <==> Truthy(src[keys[i]])
  {
    if i < n - 1 {
      SelectedMembers(src, keys, items, n - 1, i);
    } else if items[i] in Selected(src, keys, items, n - 1) {
      SelectedFrom(src, keys, items, n - 1, items[i]);
    }
  }

  /** Every selected item is one of the first n items. */
  lemma {:induction false} SelectedFrom(src: Dict, keys: seq<string>, items: seq<Value>, n: nat, x: Value)
    requires n <= |keys| == |items|
    requires forall k :: 0 <= k < n ==> keys[k] in src
    requires x in Selected(src, keys, items, n)
    ensures exists k :: 0 <= k < n && items[k] == x && Truthy(src[keys[k]])
  {
    if x !in Selected(src, keys, items, n - 1) {
      assert items[n - 1] == x;
    } else {
      SelectedFrom(src, keys, items, n - 1, x);
    }
  }

  /** The list keeps the items' order: when the items increase under some ranking, so does the list. */
  lemma {:induction false} SelectedOrdered(src: Dict, keys: seq<string>, items: seq<Value>, n: nat, rank: Value -> int)
    requires n <= |keys| == |items|
    requires forall k :: 0 <= k < n ==> keys[k] in src
    requires forall a, b :: 0 <= a < b < |items| ==> rank(items[a]) < rank(items[b])
    ensures forall a, b :: 0 <= a < b < |Selected(src, keys, items, n)| ==>
      rank(Selected(src, keys, items, n)[a]) < rank(Selected(src, keys, items, n)[b])
    ensures n > 0 ==> forall a :: 0 <= a < |Selected(src, keys, items, n)| ==>
      rank(Selected(src, keys, items, n)[a]) <= rank(items[n - 1])
  {
    if n > 0 {
      var prev := Selected(src, keys, items, n - 1);
      SelectedOrdered(src, keys, items, n - 1, rank);
      if n > 1 {
        forall a | 0 <= a < |prev|
          ensures rank(prev[a]) < rank(items[n - 1])
        {
          assert rank(prev[a]) <= rank(items[n - 2]);
        }
      }
    }
  }

  /** The position of a day in `WEEKDAYS`, 7 for anything else. */
  function DayRank(v: Value): (r: int)
    ensures 0 <= r <= 7
  {
    if v.VStr? && v.s in WEEKDAYS then
      if v.s == "mon" then 0 else if v.s == "tue" then 1 else if v.s == "wed" then 2
      else if v.s == "thu" then 3 else if v.s == "fri" then 4 else if v.s == "sat" then 5 else 6
    else 7
  }

  function IntRank(v: Value): int {
    if v.VInt? then v.i else 0
  }

  /** When the check boxes are converted, the list holds exactly the ticked items, in the
      order of the items, every check box is gone and every other key is untouched. */
  lemma FlagsToListConverts(src: Dict, listKey: string, keys: seq<string>, items: seq<Value>)
    requires |keys| == |items| && forall k :: 0 <= k < |keys| ==> keys[k] != listKey
    requires forall a, b :: 0 <= a < b < |items| ==> items[a] != items[b]
    requires listKey !in src && forall k :: 0 <= k < |keys| ==> keys[k] in src
    ensures FlagsToList(src, listKey, keys, items).Ok?
    ensures var out := FlagsToList(src, listKey, keys, items).value;
      listKey in out && out[listKey].VList? &&
      (forall k :: 0 <= k < |keys| ==> keys[k] !in out) &&
      (forall k :: 0 <= k < |items| ==> (items[k] in out[listKey].items <==> Truthy(src[keys[k]]))) &&
      (forall x :: x in out[listKey].items ==> x in items) &&
      (forall key :: key != listKey && key !in keys ==> (key in out <==> key in src) && (key in src ==> out[key] == src[key]))
  {
    var out := FlagsToList(src, listKey, keys, items).value;
    forall k | 0 <= k < |items|
      ensures items[k] in out[listKey].items <==> Truthy(src[keys[k]])
    {
      SelectedMembers(src, keys, items, |keys|, k);
    }
    forall x | x in out[listKey].items
      ensures x in items
    {
      SelectedFrom(src, keys, items, |keys|, x);
    }
  }

  /** `days_to_list` lists the ticked days in `WEEKDAYS` order. */
  lemma DaysInWeekOrder(src: Dict)
    requires COLLECTION_DAYS !in src && forall k :: 0 <= k < 7 ==> DayFlagKeys()[k] in src
    ensures var out := FlagsToList(src, COLLECTION_DAYS, DayFlagKeys(), DayItems());
      out.Ok? && COLLECTION_DAYS in out.value && out.value[COLLECTION_DAYS].VList? &&
      var days := out.value[COLLECTION_DAYS].items;
      forall a, b :: 0 <= a < b < |days| ==> DayRank(days[a]) < DayRank(days[b])
  {
    SelectedOrdered(src, DayFlagKeys(), DayItems(), 7, DayRank);
  }

  /** `weekdays_to_list` lists the ticked ordinals in ascending order, each between 1 and 5. */
  lemma OrdinalsAscending(src: Dict, prefix: string)
    requires prefix !in src && forall k :: 0 <= k < 5 ==> OrdinalFlagKeys(prefix)[k] in src
    ensures var out := FlagsToList(src, prefix, OrdinalFlagKeys(prefix), OrdinalItems());
      out.Ok? && prefix in out.value && out.value[prefix].VList? &&
      var ns := out.value[prefix].items;
      (forall a, b :: 0 <= a < b < |ns| ==> IntRank(ns[a]) < IntRank(ns[b])) &&
      (forall a :: 0 <= a < |ns| ==> ns[a].VInt? && 1 <= ns[a].i <= 5)
  {
    SelectedOrdered(src, OrdinalFlagKeys(prefix), OrdinalItems(), 5, IntRank);
    var ns := FlagsToList(src, prefix, OrdinalFlagKeys(prefix), OrdinalItems()).value[prefix].items;
    forall a | 0 <= a < |ns|
      ensures ns[a].VInt? && 1 <= ns[a].i <= 5
    {
      assert ns[a] in ns;
      SelectedFrom(src, OrdinalFlagKeys(prefix), OrdinalItems(), 5, ns[a]);
    }
  }

  /* ----------------------------------------------------------------------------------
     Display schemas and list to check boxes: `list_to_days` and `list_to_weekdays`.
     ---------------------------------------------------------------------------------- */

  /** A voluptuous `Required`/`Optional` key with its default (`None` for no default). */
  datatype Marker = Marker(key: string, required: bool, default: Option<Value>)

  /** The validator a schema entry holds: `bool`, or one the schema compiler chose. */
  datatype Validator = Boolean | FieldRule(id: nat)

  datatype SchemaEntry = SchemaEntry(marker: Marker, validator: Validator)

  predicate DistinctKeys(s: seq<SchemaEntry>) {
    forall i, j :: 0 <= i < j < |s| ==> s[i].marker.key != s[j].marker.key
  }

  /** A display schema: an insertion-ordered dictionary from markers to validators. Markers
      compare and hash by their key, so no key appears twice. */
  type Schema = s: seq<SchemaEntry> | DistinctKeys(s) witness []

  predicate HasKey(s: seq<SchemaEntry>, key: string) {
    exists i :: 0 <= i < |s| && s[i].marker.key == key
  }

  function IndexOfKey(s: seq<SchemaEntry>, key: string): (i: nat)
    requires HasKey(s, key)
    ensures i < |s| && s[i].marker.key == key
  {
    if s[0].marker.key == key then 0
    else
      assert HasKey(s[1..], key) by {
        var j :| 0 <= j < |s| && s[j].marker.key == key;
        assert s[1..][j - 1] == s[j];
      }
      1 + IndexOfKey(s[1..], key)
  }

  lemma IndexOfKeyUnique(s: Schema, i: nat)
    requires i < |s|
    ensures HasKey(s, s[i].marker.key) && IndexOfKey(s, s[i].marker.key) == i
  {
  }

  /** `schema[marker] = validator`: an existing key keeps its marker (and so its default) and
      its place and takes the new validator; a new key goes at the end. */
  function Assign(s: Schema, m: Marker, v: Validator): (r: Schema)
    ensures HasKey(s, m.key) ==> r == s[IndexOfKey(s, m.key) := SchemaEntry(s[IndexOfKey(s, m.key)].marker, v)]
    ensures !HasKey(s, m.key) ==> r == s + [SchemaEntry(m, v)]
  {
    if HasKey(s, m.key) then
      var i := IndexOfKey(s, m.key);
      s[i := SchemaEntry(s[i].marker, v)]
    else
      s + [SchemaEntry(m, v)]
  }

  /** `del schema[key]` guarded by `key in schema`. */
  function RemoveKey(s: Schema, key: string): (r: Schema)
    ensures !HasKey(r, key)
    ensures !HasKey(s, key) ==> r == s
    ensures forall e :: e in r <==> e in s && e.marker.key != key
    ensures |r| <= |s|
  {
    if s == [] then []
    else
      var rest := RemoveKey(s[1..], key);
      if s[0].marker.key == key then rest
      else
        assert forall e :: e in rest ==> e in s[1..];
        [s[0]] + rest
  }

  /** Python's `x in container`: membership in a list, a substring of a text; a non-text in
      a text, or a container that is not one, raises TypeError. */
  function Contains(container: Value, x: Value): (r: Outcome<bool>)
    ensures container.VList? ==> r == Ok(ListContains(container.items, x))
    ensures r.Raised? <==> !(container.VList? || (container.VStr? && x.VStr?))
  {
    match container
    case VList(items) => Ok(ListContains(items, x))
    case VStr(s) => if x.VStr? then Ok(Occurs(x.s, s)) else Raised(TypeError)
    case _ => Raised(TypeError)
  }

  /** The default of one check box: `bool(listKey in defaults and item in defaults[listKey])`. */
  function FlagDefault(defaults: Dict, listKey: string, item: Value): (r: Outcome<bool>)
    ensures listKey !in defaults ==> r == Ok(false)
    ensures r.Raised? ==> r.error == TypeError
  {
    if listKey !in defaults then Ok(false) else Contains(defaults[listKey], item)
  }

  /** The validator a check box ends up with: the one of an entry with the same key among
      the previous entries that are put back, and `bool` otherwise. */
  function FlagValidator(copy: seq<SchemaEntry>, dropped: set<string>, key: string): Validator {
    if copy == [] then Boolean
    else
      var last := copy[|copy| - 1];
      if last.marker.key == key && key !in dropped then last.validator
      else FlagValidator(copy[..|copy| - 1], dropped, key)
  }

  /** The previous entries whose key is not excluded, in their order. */
  function Kept(copy: seq<SchemaEntry>, excluded: set<string>): (r: seq<SchemaEntry>)
    ensures forall e :: e in r ==> e in copy && e.marker.key !in excluded
  {
    if copy == [] then []
    else
      var last := copy[|copy| - 1];
      var rest := Kept(copy[..|copy| - 1], excluded);
      assert forall e :: e in rest ==> e in copy;
      rest + (if last.marker.key in excluded then [] else [last])
  }

  lemma {:induction false} KeptDistinct(copy: seq<SchemaEntry>, excluded: set<string>)
    requires DistinctKeys(copy)
    ensures DistinctKeys(Kept(copy, excluded))
  {
    if copy != [] {
      var init := copy[..|copy| - 1];
      KeptDistinct(init, excluded);
      var last := copy[|copy| - 1];
      forall e | e in Kept(init, excluded)
        ensures e.marker.key != last.marker.key
      {
        var i :| 0 <= i < |init| && init[i] == e;
        assert copy[i] == e;
      }
    }
  }

  /** The check-box entries that open the rebuilt schema. */
  function FlagBlock(keys: seq<string>, ticks: seq<bool>, copy: seq<SchemaEntry>, dropped: set<string>): (r: seq<SchemaEntry>)
    requires |keys| == |ticks|
    ensures |r| == |keys|
  {
    seq(|keys|, i requires 0 <= i < |keys| =>
      SchemaEntry(Marker(keys[i], true, Some(VBool(ticks[i]))), FlagValidator(copy, dropped, keys[i])))
  }

  /** What `list_to_days` and `list_to_weekdays` promise: TypeError when the stored default
      cannot be searched for an item; otherwise the schema becomes one required check box
      per item, in item order, defaulting to whether the stored default list holds the item,
      followed by every previous entry except the dropped list keys, in their order. */
  function ListToFlags(schema: Schema, defaults: Dict, listKey: string, keys: seq<string>, items: seq<Value>,
                       dropped: set<string>): (r: Outcome<Schema>)
    requires |keys| == |items| && DistinctStrings(keys)
    ensures r.Raised? ==> r.error == TypeError
  {
    if exists i :: 0 <= i < |items| && FlagDefault(defaults, listKey, items[i]).Raised? then Raised(TypeError)
    else
      var ticks := seq(|items|, i requires 0 <= i < |items| => FlagDefault(defaults, listKey, items[i]).value);
      var block := FlagBlock(keys, ticks, schema, dropped);
      var rest := Kept(schema, dropped + set k | k in keys);
      KeptDistinct(schema, dropped + set k | k in keys);
      assert DistinctKeys(block + rest) by {
        forall i, j | 0 <= i < j < |block + rest|
          ensures (block + rest)[i].marker.key != (block + rest)[j].marker.key
        {
          if j >= |block| && i < |block| {
            assert (block + rest)[j] in rest;
          }
        }
      }
      Ok(block + rest)
  }

  /** The loop shared by `list_to_days` and `list_to_weekdays`. */
  method ListToFlagsLoop(schema: Schema, defaults: Dict, listKey: string, keys: seq<string>, items: seq<Value>,
                         dropped: set<string>) returns (r: Outcome<Schema>)
    requires |keys| == |items| && DistinctStrings(keys)
    requires forall k :: 0 <= k < |keys| ==> keys[k] !in dropped
    ensures r == ListToFlags(schema, defaults, listKey, keys, items, dropped)
  {
    var copy := schema;
    var s: Schema := [];
    ghost var ticks: seq<bool> := [];
    for i := 0 to |keys|
      invariant |ticks| == i
      invariant forall k :: 0 <= k < i ==> FlagDefault(defaults, listKey, items[k]) == Ok(ticks[k])
      invariant s == FlagBlock(keys[..i], ticks, [], dropped)
    {
      var tick :- FlagDefault(defaults, listKey, items[i]);
      assert !HasKey(s, keys[i]) by {
        forall j | 0 <= j < |s|
          ensures s[j].marker.key != keys[i]
        {
          assert s[j].marker.key == keys[j];
        }
      }
      s := Assign(s, Marker(keys[i], true, Some(VBool(tick))), Boolean);
      ticks := ticks + [tick];
    }
    assert keys[..|keys|] == keys;
    assert ticks == seq(|items|, i requires 0 <= i < |items| => FlagDefault(defaults, listKey, items[i]).value);
    ghost var excluded := dropped + set k | k in keys;
    for j := 0 to |copy|
      invariant s == FlagBlock(keys, ticks, copy[..j], dropped) + Kept(copy[..j], excluded)
    {
      var e := copy[j];
      assert copy[..j + 1][..j] == copy[..j];
      if e.marker.key !in dropped {
        AssignPutsBack(s, keys, ticks, copy, j, dropped);
        s := Assign(s, e.marker, e.validator);
      } else {
        assert FlagBlock(keys, ticks, copy[..j + 1], dropped) == FlagBlock(keys, ticks, copy[..j], dropped);
      }
    }
    assert copy[..|copy|] == copy;
    return Ok(s);
  }

  lemma FlagValidatorStep(copy: seq<SchemaEntry>, j: nat, dropped: set<string>, key: string)
    requires j < |copy|
    ensures FlagValidator(copy[..j + 1], dropped, key) ==
      if copy[j].marker.key == key && key !in dropped then copy[j].validator else FlagValidator(copy[..j], dropped, key)
  {
    assert copy[..j + 1][..j] == copy[..j];
  }

  /** One put-back step of the rebuild, `schema[key] = value` for the j-th previous entry. */
  lemma AssignPutsBack(s: Schema, keys: seq<string>, ticks: seq<bool>, copy: Schema, j: nat, dropped: set<string>)
    requires |keys| == |ticks| && DistinctStrings(keys) && j < |copy|
    requires copy[j].marker.key !in dropped
    requires s == FlagBlock(keys, ticks, copy[..j], dropped) + Kept(copy[..j], dropped + set k | k in keys)
    ensures Assign(s, copy[j].marker, copy[j].validator) == FlagBlock(keys, ticks, copy[..j + 1], dropped) + Kept(copy[..j + 1], dropped + set k | k in keys)
  {
    var e := copy[j];
    var excluded := dropped + set k | k in keys;
    assert copy[..j + 1][..j] == copy[..j];
    assert Kept(copy[..j + 1], excluded) == Kept(copy[..j], excluded) + (if e.marker.key in excluded then [] else [e]);
    if e.marker.key in keys {
      var k :| 0 <= k < |keys| && keys[k] == e.marker.key;
      PutBackFlag(s, keys, ticks, copy, j, dropped, k);
    } else {
      PutBackOther(s, keys, ticks, copy, j, dropped);
    }
  }

  lemma PutBackFlag(s: Schema, keys: seq<string>, ticks: seq<bool>, copy: Schema, j: nat, dropped: set<string>, k: nat)
    requires |keys| == |ticks| && DistinctStrings(keys) && j < |copy|
    requires copy[j].marker.key !in dropped && k < |keys| && keys[k] == copy[j].marker.key
    requires s == FlagBlock(keys, ticks, copy[..j], dropped) + Kept(copy[..j], dropped + set k | k in keys)
    ensures Assign(s, copy[j].marker, copy[j].validator) == FlagBlock(keys, ticks, copy[..j + 1], dropped) + Kept(copy[..j], dropped + set k | k in keys)
  {
    var e := copy[j];
    var block := FlagBlock(keys, ticks, copy[..j], dropped);
    var block' := FlagBlock(keys, ticks, copy[..j + 1], dropped);
    assert s[k].marker.key == e.marker.key;
    IndexOfKeyUnique(s, k);
    var updated := SchemaEntry(s[k].marker, e.validator);
    forall i | 0 <= i < |keys|
      ensures block'[i] == block[k := updated][i]
    {
      FlagValidatorStep(copy, j, dropped, keys[i]);
      if i != k {
        assert keys[i] != e.marker.key;
      }
    }
    assert block' == block[k := updated];
    var kept := Kept(copy[..j], dropped + set k | k in keys);
    assert s[k := updated] == block[k := updated] + kept;
    assert HasKey(s, e.marker.key) && IndexOfKey(s, e.marker.key) == k;
    assert Assign(s, e.marker, e.validator) == s[k := updated];
  }

  lemma PutBackOther(s: Schema, keys: seq<string>, ticks: seq<bool>, copy: Schema, j: nat, dropped: set<string>)
    requires |keys| == |ticks| && DistinctStrings(keys) && j < |copy|
    requires copy[j].marker.key !in dropped && copy[j].marker.key !in keys
    requires s == FlagBlock(keys, ticks, copy[..j], dropped) + Kept(copy[..j], dropped + set k | k in keys)
    ensures Assign(s, copy[j].marker, copy[j].validator) == FlagBlock(keys, ticks, copy[..j + 1], dropped) + Kept(copy[..j], dropped + set k | k in keys) + [copy[j]]
  {
    var e := copy[j];
    var block := FlagBlock(keys, ticks, copy[..j], dropped);
    var rest := Kept(copy[..j], dropped + set k | k in keys);
    assert !HasKey(s, e.marker.key) by {
      forall i | 0 <= i < |s|
        ensures s[i].marker.key != e.marker.key
      {
        if i < |block| {
          assert s[i].marker.key == keys[i];
        } else {
          assert s[i] in rest;
          assert s[i] in copy[..j];
          var m :| 0 <= m < j && copy[..j][m] == s[i];
          assert copy[m] == s[i];
        }
      }
    }
    forall i | 0 <= i < |keys|
      ensures FlagBlock(keys, ticks, copy[..j + 1], dropped)[i] == block[i]
    {
      FlagValidatorStep(copy, j, dropped, keys[i]);
    }
  }

  /** `list_to_days(schema)`, the check boxes defaulting from the stored `collection_days`. */
  method ListToDays(schema: Schema, defaults: Dict) returns (r: Outcome<Schema>)
    ensures r == ListToFlags(schema, defaults, COLLECTION_DAYS, DayFlagKeys(), DayItems(), {COLLECTION_DAYS})
  {
    r := ListToFlagsLoop(schema, defaults, COLLECTION_DAYS, DayFlagKeys(), DayItems(), {COLLECTION_DAYS});
  }

  /** `list_to_weekdays(schema, prefix)`; both ordinal lists are dropped from the old schema. */
  method ListToWeekdays(schema: Schema, defaults: Dict, prefix: string) returns (r: Outcome<Schema>)
    ensures r == ListToFlags(schema, defaults, prefix, OrdinalFlagKeys(prefix), OrdinalItems(),
                             {WEEKDAY_ORDER_NUMBER, WEEK_ORDER_NUMBER})
  {
    OrdinalFlagKeysNotLists(prefix);
    r := ListToFlagsLoop(schema, defaults, prefix, OrdinalFlagKeys(prefix), OrdinalItems(),
                         {WEEKDAY_ORDER_NUMBER, WEEK_ORDER_NUMBER});
  }

  /** An ordinal check-box key ends in a digit, so it is neither ordinal list key. */
  lemma OrdinalFlagKeysNotLists(prefix: string)
    ensures forall k :: 0 <= k < 5 ==> OrdinalFlagKeys(prefix)[k] !in {WEEKDAY_ORDER_NUMBER, WEEK_ORDER_NUMBER}
  {
    forall k | 0 <= k < 5
      ensures OrdinalFlagKeys(prefix)[k] !in {WEEKDAY_ORDER_NUMBER, WEEK_ORDER_NUMBER}
    {
      var key := OrdinalFlagKeys(prefix)[k];
      assert IsDigit(key[|key| - 1]);
      assert WEEKDAY_ORDER_NUMBER[|WEEKDAY_ORDER_NUMBER| - 1] == 'r';
      assert WEEK_ORDER_NUMBER[|WEEK_ORDER_NUMBER| - 1] == 'r';
    }
  }

  /** The values a form submits when every field keeps its default. */
  function Submitted(s: seq<SchemaEntry>): (d: Dict)
    ensures forall key :: key in d ==> HasKey(s, key)
  {
    if s == [] then map[]
    else
      var last := s[|s| - 1];
      var d := Submitted(s[..|s| - 1]);
      assert forall key :: HasKey(s[..|s| - 1], key) ==> HasKey(s, key) by {
        forall key | HasKey(s[..|s| - 1], key)
          ensures HasKey(s, key)
        {
          var i :| 0 <= i < |s| - 1 && s[..|s| - 1][i].marker.key == key;
          assert s[i].marker.key == key;
        }
      }
      if last.marker.default.Some? then d[last.marker.key := last.marker.default.value] else d
  }

  lemma {:induction false} SubmittedAt(s: Schema, i: nat)
    requires i < |s| && s[i].marker.default.Some?
    ensures s[i].marker.key in Submitted(s) && Submitted(s)[s[i].marker.key] == s[i].marker.default.value
  {
    var init := s[..|s| - 1];
    if i < |s| - 1 {
      assert init[i] == s[i];
      SubmittedAt(init, i);
    }
  }

  /** Submitting the rebuilt check boxes unchanged gives back, as the list, exactly the items
      that the stored default list holds: `list_to_days` and `days_to_list` (and the weekday
      pair) are inverse on the defaults. */
  lemma FlagsRoundTrip(schema: Schema, defaults: Dict, listKey: string, keys: seq<string>, items: seq<Value>,
                       dropped: set<string>)
    requires |keys| == |items| && DistinctStrings(keys) && listKey in dropped
    requires forall k :: 0 <= k < |keys| ==> keys[k] != listKey
    requires forall a, b :: 0 <= a < b < |items| ==> items[a] != items[b]
    requires ListToFlags(schema, defaults, listKey, keys, items, dropped).Ok?
    ensures var form := Submitted(ListToFlags(schema, defaults, listKey, keys, items, dropped).value);
      var out := FlagsToList(form, listKey, keys, items);
      out.Ok? && listKey in out.value && out.value[listKey].VList? &&
      forall k :: 0 <= k < |items| ==>
        (items[k] in out.value[listKey].items <==> FlagDefault(defaults, listKey, items[k]) == Ok(true))
  {
    var rebuilt := ListToFlags(schema, defaults, listKey, keys, items, dropped).value;
    var form := Submitted(rebuilt);
    forall k | 0 <= k < |keys|
      ensures keys[k] in form && form[keys[k]] == VBool(FlagDefault(defaults, listKey, items[k]).value)
    {
      SubmittedAt(rebuilt, k);
    }
    assert !HasKey(rebuilt, listKey) by {
      forall i | 0 <= i < |rebuilt|
        ensures rebuilt[i].marker.key != listKey
      {
        if i >= |keys| {
          assert rebuilt[i] in Kept(schema, dropped + set k | k in keys);
        }
      }
    }
    FlagsToListConverts(form, listKey, keys, items);
  }

  lemma DayItemsDistinct()
    ensures forall a, b :: 0 <= a < b < 7 ==> DayItems()[a] != DayItems()[b]
  {
  }

  /** The round trip for the collection days. */
  lemma DaysRoundTrip(schema: Schema, defaults: Dict)
    requires ListToFlags(schema, defaults, COLLECTION_DAYS, DayFlagKeys(), DayItems(), {COLLECTION_DAYS}).Ok?
    ensures var form := Submitted(ListToFlags(schema, defaults, COLLECTION_DAYS, DayFlagKeys(), DayItems(), {COLLECTION_DAYS}).value);
      var out := FlagsToList(form, COLLECTION_DAYS, DayFlagKeys(), DayItems());
      out.Ok? && COLLECTION_DAYS in out.value && out.value[COLLECTION_DAYS].VList? &&
      forall k :: 0 <= k < 7 ==>
        (VStr(WEEKDAYS[k]) in out.value[COLLECTION_DAYS].items <==> FlagDefault(defaults, COLLECTION_DAYS, VStr(WEEKDAYS[k])) == Ok(true))
  {
    DayItemsDistinct();
    FlagsRoundTrip(schema, defaults, COLLECTION_DAYS, DayFlagKeys(), DayItems(), {COLLECTION_DAYS});
    assert forall k :: 0 <= k < 7 ==> DayItems()[k] == VStr(WEEKDAYS[k]);
  }

  /* ----------------------------------------------------------------------------------
     The step controller, `GarbageCollectionShared`.
     ---------------------------------------------------------------------------------- */

  /** What a step's validator is compiled from: `compile_schema(step, valid_for)`, without
      `name` when options are edited, with the optional boolean `force_week_numbers` added in
      step 3 for monthly frequencies. */
  datatype Ruleset = Ruleset(step: int, validFor: Option<Value>, withoutName: bool, withForceWeekNumbers: bool)

  /** The validated (coerced and defaulted) input, or the text of the `vol.Invalid` raised. */
  datatype Validation = Valid(output: Dict) | Invalid(message: string)

  /** An entry of the field table: a field and the step it is asked in, if it has one. */
  datatype FieldOption = FieldOption(key: string, step: Option<int>)

  /** The parts of the configuration definition and of voluptuous the controller calls
      without this model seeing them: the field table, validation, display-schema
      compilation from the defaults store, `set_defaults`, `join_list`, the defaults
      `reset_defaults` restores, and the frequency groups. */
  datatype Definition = Definition(
    options: seq<FieldOption>,
    validate: (Ruleset, Dict) -> Validation,
    compileFlow: (int, Option<Value>, Dict) -> Schema,
    setDefaults: (int, Dict, Dict) -> Dict,
    joinList: (string, Dict) -> Dict,
    initialDefaults: Dict,
    annualFrequencies: set<string>,
    groupFrequencies: set<string>,
    annualGroupFrequencies: set<string>,
    dailyBlankFrequencies: set<string>,
    monthlyFrequencies: set<string>)

  /** `frequency in FREQUENCY_GROUP`: only a text can equal a listed frequency name. */
  predicate InFrequencies(f: Value, group: set<string>) {
    f.VStr? && f.s in group
  }

  /** The controller's fields: the configuration record `_data`, `name`, `errors`,
      `data_schema`, and the defaults store the schema compiler reads. */
  datatype SharedState = SharedState(data: Dict, name: Value, errors: map<string, string>, dataSchema: Schema, defaults: Dict)

  /** A step's return value (or escaping exception) and the controller's fields after it. */
  datatype StepOutcome = StepOutcome(result: Outcome<bool>, state: SharedState)

  /** The fields asked in the given step. */
  function StepKeys(options: seq<FieldOption>, step: int): set<string> {
    set o | o in options && o.step == Some(step) :: o.key
  }

  /** A field the input leaves out or leaves empty. */
  predicate Blank(u: Dict, key: string) {
    key !in u || u[key] == VStr("")
  }

  function Cleaned(merged: Dict, u: Dict, tagged: set<string>): Dict {
    map k | k in merged && !(k in tagged && Blank(u, k)) :: merged[k]
  }

  /** What `update_data(u, step)` does to the controller: every entry of u is stored except
      that the step's fields left out or empty are removed, and `name` is moved out of the
      record into `name`; fields of other steps that u does not mention keep their values. */
  function UpdatedState(def: Definition, st: SharedState, u: Dict, step: int): (r: SharedState)
    ensures NAME !in r.data
    ensures forall k :: k in u && k != NAME && !(k in StepKeys(def.options, step) && u[k] == VStr("")) ==>
      k in r.data && r.data[k] == u[k]
    ensures forall k :: k in StepKeys(def.options, step) && Blank(u, k) ==> k !in r.data
    ensures forall k :: k !in u && k !in StepKeys(def.options, step) && k != NAME ==>
      (k in r.data <==> k in st.data) && (k in st.data ==> r.data[k] == st.data[k])
    ensures NAME in u && !(NAME in StepKeys(def.options, step) && u[NAME] == VStr("")) ==> r.name == u[NAME]
    ensures (NAME !in st.data && NAME !in u) ==> r.name == st.name
    ensures r.errors == st.errors && r.dataSchema == st.dataSchema && r.defaults == st.defaults
  {
    var cleaned := Cleaned(st.data + u, u, StepKeys(def.options, step));
    if NAME in cleaned then st.(data := cleaned - {NAME}, name := cleaned[NAME]) else st.(data := cleaned)
  }

  /** `ui[key] = string_to_list(ui[key])` when key is present: that entry becomes the list of
      its text and every other entry stays; the conversion's error escapes. */
  function ConvertKey(ui: Dict, key: string): (r: Outcome<Dict>)
    ensures r.Ok? ==> r.value.Keys == ui.Keys
    ensures key !in ui ==> r == Ok(ui)
    ensures key in ui ==> (r.Raised? <==> StringToList(ui[key]).Raised?)
    ensures r.Raised? ==> key in ui && r.error == StringToList(ui[key]).error
    ensures r.Ok? && key in ui ==> r.value[key] == StringToList(ui[key]).value
    ensures r.Ok? ==> forall k :: k in ui && k != key ==> r.value[k] == ui[k]
  {
    if key in ui then
      var converted :- StringToList(ui[key]);
      Ok(ui[key := converted])
    else Ok(ui)
  }

  /** Step 1's conversion of both date lists: each present entry becomes the list of its
      text, include dates first, and every other entry stays. */
  function ConvertDateLists(ui: Dict): (r: Outcome<Dict>)
    ensures r.Ok? ==> r.value.Keys == ui.Keys
    ensures r.Ok? ==> forall k :: k in ui && k != INCLUDE_DATES && k != EXCLUDE_DATES ==> r.value[k] == ui[k]
    ensures r.Raised? <==> (INCLUDE_DATES in ui && StringToList(ui[INCLUDE_DATES]).Raised?)
                           || (EXCLUDE_DATES in ui && StringToList(ui[EXCLUDE_DATES]).Raised?)
    ensures r.Ok? && INCLUDE_DATES in ui ==> r.value[INCLUDE_DATES] == StringToList(ui[INCLUDE_DATES]).value
    ensures r.Ok? && EXCLUDE_DATES in ui ==> r.value[EXCLUDE_DATES] == StringToList(ui[EXCLUDE_DATES]).value
  {
    var ui1 :- ConvertKey(ui, INCLUDE_DATES);
    ConvertKey(ui1, EXCLUDE_DATES)
  }

  /** The error kind of a failed step 1, from the text of the validation error: a date field
      first, then an icon field, then the expiry time, and anything else. */
  function ErrorKind(message: string): (kind: string)
    ensures kind == "date" <==> Occurs(INCLUDE_DATES, message) || Occurs(EXCLUDE_DATES, message) || Occurs(FIRST_DATE, message)
    ensures kind == "icon" <==> (!Occurs(INCLUDE_DATES, message) && !Occurs(EXCLUDE_DATES, message) && !Occurs(FIRST_DATE, message)
      && (Occurs(ICON_NORMAL, message) || Occurs(ICON_TODAY, message) || Occurs(ICON_TOMORROW, message)))
    ensures kind == "time" <==> (!Occurs(INCLUDE_DATES, message) && !Occurs(EXCLUDE_DATES, message) && !Occurs(FIRST_DATE, message)
      && !Occurs(ICON_NORMAL, message) && !Occurs(ICON_TODAY, message) && !Occurs(ICON_TOMORROW, message)
      && Occurs(EXPIRE_AFTER, message))
    ensures kind in {"date", "icon", "time", "value"}
  {
    if Occurs(INCLUDE_DATES, message) || Occurs(EXCLUDE_DATES, message) || Occurs(FIRST_DATE, message) then "date"
    else if Occurs(ICON_NORMAL, message) || Occurs(ICON_TODAY, message) || Occurs(ICON_TOMORROW, message) then "icon"
    else if Occurs(EXPIRE_AFTER, message) then "time"
    else "value"
  }

  function Rules1(defaultsArg: Option<Dict>): Ruleset {
    Ruleset(1, None, defaultsArg.Some?, false)
  }

  /** `step1_user_init(user_input, defaults)`: general set-up. It advances exactly when there
      is input and the converted input validates, and only then changes the record; a failed
      validation is reported as one error kind; with `defaults` (editing options) `name` is
      neither validated nor shown. */
  function Step1(def: Definition, st: SharedState, userInput: Option<Dict>, defaultsArg: Option<Dict>): (r: StepOutcome)
    ensures r.result == Ok(true) <==>
      userInput.Some? && ConvertDateLists(userInput.value).Ok? && def.validate(Rules1(defaultsArg), ConvertDateLists(userInput.value).value).Valid?
    ensures r.result != Ok(true) ==> r.state.data == st.data && r.state.name == st.name
    ensures r.result == Ok(false) && userInput.Some? ==>
      ConvertDateLists(userInput.value).Ok? &&
      var v := def.validate(Rules1(defaultsArg), ConvertDateLists(userInput.value).value);
      v.Invalid? && r.state.errors == map[BASE := ErrorKind(v.message)]
    ensures r.result == Ok(false) && defaultsArg.Some? ==> !HasKey(r.state.dataSchema, NAME)
    ensures r.result == Ok(true) ==> r.state.errors == map[]
    ensures r.result == Ok(true) ==>
      r.state == UpdatedState(def, st.(errors := map[]), ConvertDateLists(userInput.value).value, 1)
  {
    var st1 := st.(errors := map[]);
    if userInput.Some? then
      match ConvertDateLists(userInput.value)
      case Raised(e) => StepOutcome(Raised(e), st1)
      case Ok(ui) =>
        match def.validate(Rules1(defaultsArg), ui)
        case Valid(_) => StepOutcome(Ok(true), UpdatedState(def, st1, ui, 1))
        case Invalid(message) =>
          Show1(def, st1.(errors := map[BASE := ErrorKind(message)], defaults := def.setDefaults(1, ui, st1.defaults)), defaultsArg)
    else if defaultsArg.Some? then
      var d := def.setDefaults(1, defaultsArg.value, def.initialDefaults);
      Show1(def, st1.(defaults := def.joinList(INCLUDE_DATES, def.joinList(EXCLUDE_DATES, d))), defaultsArg)
    else
      Show1(def, st1, defaultsArg)
  }

  /** Step 1 shown again: the compiled display schema, without `name` when editing options. */
  function Show1(def: Definition, st: SharedState, defaultsArg: Option<Dict>): (r: StepOutcome)
    ensures r.result == Ok(false) && r.state == st.(dataSchema := r.state.dataSchema)
    ensures defaultsArg.Some? ==> !HasKey(r.state.dataSchema, NAME)
  {
    var schema := def.compileFlow(1, None, st.defaults);
    StepOutcome(Ok(false), st.(dataSchema := if defaultsArg.Some? then RemoveKey(schema, NAME) else schema))
  }

  /** The error kind of a failed step 2. */
  function Step2ErrorKind(def: Definition, frequency: Value): string {
    if InFrequencies(frequency, def.annualFrequencies) then "month_day" else "entities"
  }

  /** `step2_annual_group(user_input, defaults)`: the annual date or the group members. It
      advances only on non-empty input that validates; otherwise it keeps the record and, for
      a failed validation, reports `month_day` for annual frequencies and `entities` else. */
  function Step2(def: Definition, st: SharedState, userInput: Option<Dict>, defaultsArg: Option<Dict>): (r: StepOutcome)
    ensures r.result != Ok(true) ==> r.state.data == st.data && r.state.name == st.name
    ensures r.result == Ok(true) ==>
      userInput.Some? && userInput.value != map[] && FREQUENCY in st.data &&
      def.validate(Ruleset(2, Some(st.data[FREQUENCY]), false, false), userInput.value).Valid?
    ensures r.result == Ok(false) && userInput.Some? && userInput.value != map[] ==>
      FREQUENCY in st.data && r.state.errors == map[BASE := Step2ErrorKind(def, st.data[FREQUENCY])]
    ensures FREQUENCY !in st.data ==> r.result == Raised(KeyError)
    ensures (userInput.Some? && userInput.value != map[] && FREQUENCY in st.data &&
      def.validate(Ruleset(2, Some(st.data[FREQUENCY]), false, false), userInput.value).Valid? &&
      (InFrequencies(st.data[FREQUENCY], def.groupFrequencies) ==>
         ENTITIES in userInput.value && StringToList(userInput.value[ENTITIES]).Ok?)) ==>
      r.result == Ok(true)
    ensures r.result == Ok(true) && InFrequencies(st.data[FREQUENCY], def.groupFrequencies) ==>
      ENTITIES in userInput.value && StringToList(userInput.value[ENTITIES]).Ok?
    ensures r.result == Ok(true) ==>
      var output := def.validate(Ruleset(2, Some(st.data[FREQUENCY]), false, false), userInput.value).output;
      r.state == UpdatedState(def, st.(errors := map[], dataSchema := []),
        if InFrequencies(st.data[FREQUENCY], def.groupFrequencies)
        then output[ENTITIES := StringToList(userInput.value[ENTITIES]).value]
        else output, 2)
  {
    var st1 := st.(errors := map[], dataSchema := []);
    if userInput.Some? && userInput.value != map[] then
      var ui := userInput.value;
      match Lookup(st1.data, FREQUENCY)
      case Raised(e) => StepOutcome(Raised(e), st1)
      case Ok(freq) =>
        match def.validate(Ruleset(2, Some(freq), false, false), ui)
        case Invalid(_) =>
          Show2(def, st1.(errors := map[BASE := Step2ErrorKind(def, freq)], defaults := def.setDefaults(2, ui, st1.defaults)))
        case Valid(updates) =>
          if InFrequencies(freq, def.groupFrequencies) then
            match Lookup(ui, ENTITIES)
            case Raised(e) => StepOutcome(Raised(e), st1)
            case Ok(members) =>
              match StringToList(members)
              case Raised(e) => StepOutcome(Raised(e), st1)
              case Ok(list) => StepOutcome(Ok(true), UpdatedState(def, st1, updates[ENTITIES := list], 2))
          else StepOutcome(Ok(true), UpdatedState(def, st1, updates, 2))
    else
      Show2(def, if defaultsArg.Some? then st1.(defaults := def.setDefaults(2, defaultsArg.value, st1.defaults)) else st1)
  }

  function Show2(def: Definition, st: SharedState): (r: StepOutcome)
    ensures r.result != Ok(true) && r.state.data == st.data && r.state.name == st.name && r.state.errors == st.errors
    ensures FREQUENCY !in st.data ==> r.result == Raised(KeyError)
  {
    match Lookup(st.data, FREQUENCY)
    case Raised(e) => StepOutcome(Raised(e), st)
    case Ok(freq) => StepOutcome(Ok(false), st.(dataSchema := def.compileFlow(2, Some(freq), st.defaults)))
  }

  /** `len(d[key])`. */
  function ListLength(d: Dict, key: string): (r: Outcome<int>)
    ensures r.Ok? ==> key in d && r.value >= 0
    ensures key !in d ==> r == Raised(KeyError)
    ensures key in d ==> r == Len(d[key])
    ensures key in d && d[key].VList? ==> r == Ok(|d[key].items|)
  {
    var v :- Lookup(d, key);
    Len(v)
  }

  /** The step-3 input after `days_to_list` and validation, and whether validation passed. */
  function DetailInput(def: Definition, data: Dict, ui: Dict): Outcome<(Dict, bool)> {
    var updates :- FlagsToList(ui, COLLECTION_DAYS, DayFlagKeys(), DayItems());
    var freq :- Lookup(data, FREQUENCY);
    match def.validate(Ruleset(3, Some(freq), false, InFrequencies(freq, def.monthlyFrequencies)), updates)
    case Valid(output) => Ok((output, true))
    case Invalid(_) => Ok((updates, false))
  }

  /** `step3_detail(user_input, defaults)`: collection days and the other frequency details.
      It advances only when validation passed and the collection-day list is non-empty; an
      empty list always fails with `days`, even when validation failed too. */
  function Step3(def: Definition, st: SharedState, userInput: Option<Dict>, defaultsArg: Option<Dict>): (r: StepOutcome)
    ensures r.result != Ok(true) ==> r.state.data == st.data && r.state.name == st.name
    ensures r.result == Ok(true) ==>
      userInput.Some? && userInput.value != map[] &&
      var input := DetailInput(def, st.data, userInput.value);
      input.Ok? && input.value.1 && ListLength(input.value.0, COLLECTION_DAYS).Ok? && ListLength(input.value.0, COLLECTION_DAYS).value > 0
    ensures (userInput.Some? && userInput.value != map[] && DetailInput(def, st.data, userInput.value).Ok? &&
      ListLength(DetailInput(def, st.data, userInput.value).value.0, COLLECTION_DAYS) == Ok(0)) ==>
      r.result != Ok(true) && r.state.errors == map[BASE := "days"]
    ensures (userInput.Some? && userInput.value != map[] &&
      var input := DetailInput(def, st.data, userInput.value);
      input.Ok? && !input.value.1 && ListLength(input.value.0, COLLECTION_DAYS).Ok? &&
      ListLength(input.value.0, COLLECTION_DAYS).value > 0) ==>
      r.result != Ok(true) && r.state.errors == map[BASE := "value"]
    ensures (userInput.Some? && userInput.value != map[] &&
      var input := DetailInput(def, st.data, userInput.value);
      input.Ok? && input.value.1 && ListLength(input.value.0, COLLECTION_DAYS).Ok? && ListLength(input.value.0, COLLECTION_DAYS).value > 0) ==>
      r.result == Ok(true)
    ensures r.result == Ok(true) ==>
      r.state == UpdatedState(def, st.(errors := map[], dataSchema := []), DetailInput(def, st.data, userInput.value).value.0, 3)
  {
    var st1 := st.(errors := map[], dataSchema := []);
    if userInput.Some? && userInput.value != map[] then
      match DetailInput(def, st1.data, userInput.value)
      case Raised(e) => StepOutcome(Raised(e), st1)
      case Ok(input) =>
        var errs: map<string, string> := if input.1 then map[] else map[BASE := "value"];
        match ListLength(input.0, COLLECTION_DAYS)
        case Raised(e) => StepOutcome(Raised(e), st1.(errors := errs))
        case Ok(n) =>
          var errs' := if n == 0 then errs[BASE := "days"] else errs;
          assert BASE in errs' <==> !input.1 || n == 0;
          if errs' == map[] then StepOutcome(Ok(true), UpdatedState(def, st1, input.0, 3))
          else Show3(def, st1.(errors := errs'), userInput, defaultsArg)
    else
      Show3(def, if defaultsArg.Some? then st1.(defaults := def.setDefaults(3, defaultsArg.value, st1.defaults)) else st1,
            userInput, defaultsArg)
  }

  /** The default of the `force_week_numbers` toggle on the step-3 form. */
  function ForceWeekNumbersDefault(userInput: Option<Dict>, defaultsArg: Option<Dict>): Value {
    if userInput.Some? && FORCE_WEEK_NUMBERS in userInput.value then userInput.value[FORCE_WEEK_NUMBERS]
    else if defaultsArg.Some? && WEEK_ORDER_NUMBER in defaultsArg.value then VBool(true)
    else VBool(false)
  }

  /** Step 3 shown again: the compiled schema with the day check boxes, and for monthly
      frequencies the toggle. A failing default lookup leaves the schema cleared. */
  function Show3(def: Definition, st: SharedState, userInput: Option<Dict>, defaultsArg: Option<Dict>): (r: StepOutcome)
    ensures r.result != Ok(true) && r.state == st.(dataSchema := r.state.dataSchema)
  {
    match Lookup(st.data, FREQUENCY)
    case Raised(e) => StepOutcome(Raised(e), st)
    case Ok(freq) =>
      var schema := def.compileFlow(3, Some(freq), st.defaults);
      match ListToFlags(schema, st.defaults, COLLECTION_DAYS, DayFlagKeys(), DayItems(), {COLLECTION_DAYS})
      case Raised(e) => StepOutcome(Raised(e), st.(dataSchema := []))
      case Ok(days) =>
        if InFrequencies(freq, def.monthlyFrequencies) then
          var toggle := Marker(FORCE_WEEK_NUMBERS, false, Some(ForceWeekNumbersDefault(userInput, defaultsArg)));
          StepOutcome(Ok(false), st.(dataSchema := Assign(days, toggle, Boolean)))
        else StepOutcome(Ok(false), st.(dataSchema := days))
  }

  /** The ordinal list a monthly collection uses: week numbers when forced, else weekday numbers. */
  function OrdinalListKey(force: bool): string {
    if force then WEEK_ORDER_NUMBER else WEEKDAY_ORDER_NUMBER
  }

  /** For monthly frequencies, the step-4 input after `weekdays_to_list` for the list in use. */
  function OrdinalInput(def: Definition, data: Dict, ui: Dict): Outcome<Dict> {
    var freq :- Lookup(data, FREQUENCY);
    if InFrequencies(freq, def.monthlyFrequencies) then
      var force :- Lookup(data, FORCE_WEEK_NUMBERS);
      var key := OrdinalListKey(Truthy(force));
      FlagsToList(ui, key, OrdinalFlagKeys(key), OrdinalItems())
    else Ok(ui)
  }

  /** The step-4 input after conversion and validation, and whether validation passed. */
  function FinalInput(def: Definition, data: Dict, ui: Dict): Outcome<(Dict, bool)> {
    var u1 :- OrdinalInput(def, data, ui);
    var freq :- Lookup(data, FREQUENCY);
    var u2 :- ConvertKey(u1, HOLIDAY_POP_NAMED);
    match def.validate(Ruleset(4, Some(freq), false, false), u2)
    case Valid(output) => Ok((output, true))
    case Invalid(_) => Ok((u2, false))
  }

  /** The emptiness check on the ordinal list in use, for monthly frequencies: the key of
      the list when it is empty. */
  function OrdinalCheck(def: Definition, data: Dict, updates: Dict): (r: Outcome<Option<string>>)
    ensures r == Ok(None) && FREQUENCY in data && InFrequencies(data[FREQUENCY], def.monthlyFrequencies) ==>
      FORCE_WEEK_NUMBERS in data &&
      var key := OrdinalListKey(Truthy(data[FORCE_WEEK_NUMBERS]));
      ListLength(updates, key).Ok? && ListLength(updates, key).value > 0
  {
    var freq :- Lookup(data, FREQUENCY);
    if InFrequencies(freq, def.monthlyFrequencies) then
      var force :- Lookup(data, FORCE_WEEK_NUMBERS);
      var key := OrdinalListKey(Truthy(force));
      var n :- ListLength(updates, key);
      Ok(if n == 0 then Some(key) else None)
    else Ok(None)
  }

  /** The clean-up after a successful step 4: only the ordinal list the toggle selects is
      kept, and neither the toggle nor `name` stays in the record. */
  function Finalize(st: SharedState): (r: SharedState)
    ensures FORCE_WEEK_NUMBERS !in r.data && NAME !in r.data
    ensures FORCE_WEEK_NUMBERS in st.data && Truthy(st.data[FORCE_WEEK_NUMBERS]) ==> WEEKDAY_ORDER_NUMBER !in r.data
    ensures FORCE_WEEK_NUMBERS in st.data && !Truthy(st.data[FORCE_WEEK_NUMBERS]) ==> WEEK_ORDER_NUMBER !in r.data
    ensures r.data.Keys <= st.data.Keys && forall k :: k in r.data ==> r.data[k] == st.data[k]
    ensures forall k :: k in st.data && k !in {FORCE_WEEK_NUMBERS, NAME, WEEK_ORDER_NUMBER, WEEKDAY_ORDER_NUMBER} ==> k in r.data
    ensures r == st.(data := r.data)
  {
    var d := st.data;
    var d1 := if FORCE_WEEK_NUMBERS in d then
        (if Truthy(d[FORCE_WEEK_NUMBERS]) then d - {WEEKDAY_ORDER_NUMBER} else d - {WEEK_ORDER_NUMBER}) - {FORCE_WEEK_NUMBERS}
      else d;
    st.(data := d1 - {NAME})
  }

  /** `step4_final(user_input, defaults)`: the remaining parameters. It advances only when
      validation passed and, for monthly frequencies, the ordinal list in use is non-empty;
      then it cleans up the record. */
  function Step4(def: Definition, st: SharedState, userInput: Option<Dict>, defaultsArg: Option<Dict>): (r: StepOutcome)
    ensures r.result != Ok(true) ==> r.state.data == st.data && r.state.name == st.name
    ensures r.result == Ok(true) ==>
      FORCE_WEEK_NUMBERS !in r.state.data && NAME !in r.state.data &&
      userInput.Some? && userInput.value != map[] &&
      var input := FinalInput(def, st.data, userInput.value);
      input.Ok? && input.value.1 && OrdinalCheck(def, st.data, input.value.0) == Ok(None)
    ensures r.result == Ok(true) ==>
      r.state == Finalize(UpdatedState(def, st.(errors := map[], dataSchema := []), FinalInput(def, st.data, userInput.value).value.0, 4))
    ensures (userInput.Some? && userInput.value != map[] &&
      var input := FinalInput(def, st.data, userInput.value);
      input.Ok? && input.value.1 && OrdinalCheck(def, st.data, input.value.0) == Ok(None)) ==>
      r.result == Ok(true)
    ensures (userInput.Some? && userInput.value != map[] &&
      var input := FinalInput(def, st.data, userInput.value);
      input.Ok? && OrdinalCheck(def, st.data, input.value.0).Ok? &&
      (!input.value.1 || OrdinalCheck(def, st.data, input.value.0).value.Some?)) ==>
      var empty := OrdinalCheck(def, st.data, FinalInput(def, st.data, userInput.value).value.0).value;
      r.result != Ok(true) && r.state.errors == map[BASE := if empty.Some? then empty.value else "value"]
    ensures r.result == Ok(true) ==>
      var d := UpdatedState(def, st, FinalInput(def, st.data, userInput.value).value.0, 4).data;
      (FORCE_WEEK_NUMBERS in d && Truthy(d[FORCE_WEEK_NUMBERS]) ==> WEEKDAY_ORDER_NUMBER !in r.state.data)
      && (FORCE_WEEK_NUMBERS in d && !Truthy(d[FORCE_WEEK_NUMBERS]) ==> WEEK_ORDER_NUMBER !in r.state.data)
  {
    var st1 := st.(errors := map[], dataSchema := []);
    if userInput.Some? && userInput.value != map[] then
      match FinalInput(def, st1.data, userInput.value)
      case Raised(e) => StepOutcome(Raised(e), st1)
      case Ok(input) =>
        var errs: map<string, string> := if input.1 then map[] else map[BASE := "value"];
        match OrdinalCheck(def, st1.data, input.0)
        case Raised(e) => StepOutcome(Raised(e), st1.(errors := errs))
        case Ok(empty) =>
          var errs' := if empty.Some? then errs[BASE := empty.value] else errs;
          assert BASE in errs' <==> !input.1 || empty.Some?;
          if errs' == map[] then StepOutcome(Ok(true), Finalize(UpdatedState(def, st1, input.0, 4)))
          else Show4(def, st1.(errors := errs'))
    else
      Show4(def, if defaultsArg.Some? then
          st1.(defaults := def.joinList(HOLIDAY_POP_NAMED, def.setDefaults(4, defaultsArg.value, st1.defaults)))
        else st1)
  }

  /** Step 4 shown again: the compiled schema, and for monthly frequencies the check boxes of
      the ordinal list in use. */
  function Show4(def: Definition, st: SharedState): (r: StepOutcome)
    ensures r.result != Ok(true) && r.state == st.(dataSchema := r.state.dataSchema)
  {
    match Lookup(st.data, FREQUENCY)
    case Raised(e) => StepOutcome(Raised(e), st)
    case Ok(freq) =>
      var schema := def.compileFlow(4, Some(freq), st.defaults);
      if InFrequencies(freq, def.monthlyFrequencies) then
        match Lookup(st.data, FORCE_WEEK_NUMBERS)
        case Raised(e) => StepOutcome(Raised(e), st.(dataSchema := schema))
        case Ok(force) =>
          var key := OrdinalListKey(Truthy(force));
          match ListToFlags(schema, st.defaults, key, OrdinalFlagKeys(key), OrdinalItems(), {WEEKDAY_ORDER_NUMBER, WEEK_ORDER_NUMBER})
          case Raised(e) => StepOutcome(Raised(e), st.(dataSchema := []))
          case Ok(flags) => StepOutcome(Ok(false), st.(dataSchema := flags))
      else StepOutcome(Ok(false), st.(dataSchema := schema))
  }

  /** For a monthly frequency, when step 4 succeeds and the validated input does not itself
      set the toggle, the ordinal list in use is in the record and non-empty. */
  lemma Step4KeepsOrdinalList(def: Definition, st: SharedState, ui: Dict, defaultsArg: Option<Dict>)
    requires Step4(def, st, Some(ui), defaultsArg).result == Ok(true)
    requires FREQUENCY in st.data && InFrequencies(st.data[FREQUENCY], def.monthlyFrequencies)
    requires FORCE_WEEK_NUMBERS !in FinalInput(def, st.data, ui).value.0
    ensures FORCE_WEEK_NUMBERS in st.data
    ensures var key := OrdinalListKey(Truthy(st.data[FORCE_WEEK_NUMBERS]));
      var data := Step4(def, st, Some(ui), defaultsArg).state.data;
      key in data && ListLength(data, key).Ok? && ListLength(data, key).value > 0
  {
    var st1 := st.(errors := map[], dataSchema := []);
    var input := FinalInput(def, st.data, ui).value;
    var key := OrdinalListKey(Truthy(st.data[FORCE_WEEK_NUMBERS]));
    assert ListLength(input.0, key).Ok? && ListLength(input.0, key).value > 0;
    var updated := UpdatedState(def, st1, input.0, 4);
    assert input.0[key] != VStr("");
    assert key in updated.data && updated.data[key] == input.0[key];
    if FORCE_WEEK_NUMBERS in updated.data {
      assert updated.data[FORCE_WEEK_NUMBERS] == st.data[FORCE_WEEK_NUMBERS];
    }
  }

  /* ----------------------------------------------------------------------------------
     Routing in the flow handlers.
     ---------------------------------------------------------------------------------- */

  datatype FlowStep = User | AnnualGroup | Detail | Final

  function StepRank(s: FlowStep): nat {
    match s
    case User => 3
    case Detail => 2
    case _ => 1
  }

  /** The step a flow handler goes to after a step succeeds, or None when it creates the
      entry: annual and group frequencies go to the annual/group step, daily and blank ones
      straight to the final step, all others through the detail step. */
  function NextStep(def: Definition, s: FlowStep, frequency: Value): (next: Option<FlowStep>)
    ensures next.Some? ==> StepRank(next.value) < StepRank(s)
  {
    match s
    case User =>
      if InFrequencies(frequency, def.annualGroupFrequencies) then Some(AnnualGroup)
      else if InFrequencies(frequency, def.dailyBlankFrequencies) then Some(Final)
      else Some(Detail)
    case Detail => Some(Final)
    case _ => None
  }

  /** The steps a flow passes through when every step succeeds. */
  function Path(def: Definition, s: FlowStep, frequency: Value): (p: seq<FlowStep>)
    ensures |p| >= 1 && p[0] == s && NextStep(def, p[|p| - 1], frequency).None?
    ensures |p| <= StepRank(s)
    decreases StepRank(s)
  {
    match NextStep(def, s, frequency)
    case None => [s]
    case Some(next) => [s] + Path(def, next, frequency)
  }

  /** A flow ends after the annual/group step exactly for annual and group frequencies,
      passes the detail step exactly for the other non-daily, non-blank ones, and otherwise
      ends after the final step. */
  lemma {:induction false} RoutingPaths(def: Definition, frequency: Value)
    ensures var p := Path(def, User, frequency);
      (AnnualGroup in p <==> InFrequencies(frequency, def.annualGroupFrequencies)) &&
      (Detail in p <==> !InFrequencies(frequency, def.annualGroupFrequencies) && !InFrequencies(frequency, def.dailyBlankFrequencies)) &&
      (Final in p <==> !InFrequencies(frequency, def.annualGroupFrequencies)) &&
      (p[|p| - 1] == AnnualGroup || p[|p| - 1] == Final)
  {
    assert Path(def, AnnualGroup, frequency) == [AnnualGroup];
    assert Path(def, Final, frequency) == [Final];
    assert Path(def, Detail, frequency) == [Detail, Final];
  }

  /** The controller object itself. */
  class Shared {
    const definition: Definition
    var data: Dict
    var name: Value
    var errors: map<string, string>
    var dataSchema: Schema
    var defaults: Dict

    function State(): SharedState
      reads this
    {
      SharedState(data, name, errors, dataSchema, defaults)
    }

    /** `GarbageCollectionShared(unique_id)`, over the current defaults store. */
    constructor (definition: Definition, uniqueId: Value, defaults: Dict)
      ensures this.definition == definition
      ensures State() == SharedState(map["unique_id" := uniqueId], VNone, map[], [], defaults)
    {
      this.definition := definition;
      data := map["unique_id" := uniqueId];
      name := VNone;
      errors := map[];
      dataSchema := [];
      this.defaults := defaults;
    }

    /** The `frequency` property: `None` when the record has none yet. */
    function Frequency(): (f: Value)
      reads this
      ensures FREQUENCY in data ==> f == data[FREQUENCY]
      ensures FREQUENCY !in data ==> f == VNone
    {
      if FREQUENCY in data then data[FREQUENCY] else VNone
    }

    /** `update_data(u, step)`. */
    method UpdateData(u: Dict, step: int)
      modifies this
      ensures State() == UpdatedState(definition, old(State()), u, step)
    {
      var merged := data + u;
      var d := merged;
      for i := 0 to |definition.options|
        invariant d == Cleaned(merged, u, StepKeys(definition.options[..i], step))
      {
        var o := definition.options[i];
        assert definition.options[..i + 1] == definition.options[..i] + [o];
        if o.step == Some(step) && o.key in d && (o.key !in u || u[o.key] == VStr("")) {
          d := d - {o.key};
        }
      }
      assert definition.options[..|definition.options|] == definition.options;
      data := d;
      if NAME in data {
        name := data[NAME];
        data := data - {NAME};
      }
    }

    /** `step1_user_init(user_input, defaults)`. */
    method Step1UserInit(userInput: Option<Dict>, defaultsArg: Option<Dict>) returns (r: Outcome<bool>)
      modifies this
      ensures StepOutcome(r, State()) == Step1(definition, old(State()), userInput, defaultsArg)
    {
      errors := map[];
      if userInput.Some? {
        var ui := userInput.value;
        if INCLUDE_DATES in ui {
          var converted :- StringToList(ui[INCLUDE_DATES]);
          ui := ui[INCLUDE_DATES := converted];
        }
        assert ConvertKey(userInput.value, INCLUDE_DATES) == Ok(ui);
        ghost var ui1 := ui;
        if EXCLUDE_DATES in ui {
          var converted :- StringToList(ui[EXCLUDE_DATES]);
          ui := ui[EXCLUDE_DATES := converted];
        }
        assert ConvertKey(ui1, EXCLUDE_DATES) == Ok(ui);
        assert ConvertDateLists(userInput.value) == Ok(ui);
        var validation := definition.validate(Rules1(defaultsArg), ui);
        if validation.Invalid? {
          errors := errors[BASE := ErrorKind(validation.message)];
          defaults := definition.setDefaults(1, ui, defaults);
          assert BASE in errors;
        }
        if errors == map[] {
          assert validation.Valid?;
          UpdateData(ui, 1);
          return Ok(true);
        }
      } else if defaultsArg.Some? {
        defaults := definition.initialDefaults;
        defaults := definition.setDefaults(1, defaultsArg.value, defaults);
        defaults := definition.joinList(EXCLUDE_DATES, defaults);
        defaults := definition.joinList(INCLUDE_DATES, defaults);
      }
      r := ShowUser(defaultsArg);
    }

    /** The display part of step 1. */
    method ShowUser(defaultsArg: Option<Dict>) returns (r: Outcome<bool>)
      modifies this
      ensures StepOutcome(r, State()) == Show1(definition, old(State()), defaultsArg)
    {
      dataSchema := definition.compileFlow(1, None, defaults);
      if defaultsArg.Some? && HasKey(dataSchema, NAME) {
        dataSchema := RemoveKey(dataSchema, NAME);
      }
      return Ok(false);
    }

    /** `step2_annual_group(user_input, defaults)`. */
    method Step2AnnualGroup(userInput: Option<Dict>, defaultsArg: Option<Dict>) returns (r: Outcome<bool>)
      modifies this
      ensures StepOutcome(r, State()) == Step2(definition, old(State()), userInput, defaultsArg)
    {
      errors := map[];
      dataSchema := [];
      if userInput.Some? && userInput.value != map[] {
        var ui := userInput.value;
        var frequency :- Lookup(data, FREQUENCY);
        var updates: Dict := map[];
        var validation := definition.validate(Ruleset(2, Some(frequency), false, false), ui);
        if validation.Invalid? {
          errors := errors[BASE := Step2ErrorKind(definition, frequency)];
          defaults := definition.setDefaults(2, ui, defaults);
          assert BASE in errors;
        } else {
          updates := validation.output;
        }
        if errors == map[] {
          assert validation.Valid?;
          if InFrequencies(frequency, definition.groupFrequencies) {
            var members :- Lookup(ui, ENTITIES);
            var list :- StringToList(members);
            updates := updates[ENTITIES := list];
          }
          UpdateData(updates, 2);
          return Ok(true);
        }
      } else if defaultsArg.Some? {
        defaults := definition.setDefaults(2, defaultsArg.value, defaults);
      }
      var frequency :- Lookup(data, FREQUENCY);
      dataSchema := definition.compileFlow(2, Some(frequency), defaults);
      return Ok(false);
    }

    /** `step3_detail(user_input, defaults)`. */
    method Step3Detail(userInput: Option<Dict>, defaultsArg: Option<Dict>) returns (r: Outcome<bool>)
      modifies this
      ensures StepOutcome(r, State()) == Step3(definition, old(State()), userInput, defaultsArg)
    {
      errors := map[];
      dataSchema := [];
      if userInput.Some? && userInput.value != map[] {
        var updates :- DaysToList(userInput.value);
        var frequency :- Lookup(data, FREQUENCY);
        var monthly := InFrequencies(frequency, definition.monthlyFrequencies);
        var validation := definition.validate(Ruleset(3, Some(frequency), false, monthly), updates);
        if validation.Valid? {
          updates := validation.output;
        } else {
          errors := errors[BASE := "value"];
        }
        assert DetailInput(definition, data, userInput.value) == Ok((updates, validation.Valid?));
        var n :- ListLength(updates, COLLECTION_DAYS);
        if n == 0 {
          errors := errors[BASE := "days"];
        }
        assert !validation.Valid? || n == 0 ==> BASE in errors;
        if errors == map[] {
          UpdateData(updates, 3);
          return Ok(true);
        }
      } else if defaultsArg.Some? {
        defaults := definition.setDefaults(3, defaultsArg.value, defaults);
      }
      r := ShowDetail(userInput, defaultsArg);
    }

    /** The display part of step 3. */
    method ShowDetail(userInput: Option<Dict>, defaultsArg: Option<Dict>) returns (r: Outcome<bool>)
      modifies this
      ensures StepOutcome(r, State()) == Show3(definition, old(State()), userInput, defaultsArg)
    {
      var frequency :- Lookup(data, FREQUENCY);
      dataSchema := definition.compileFlow(3, Some(frequency), defaults);
      var days := ListToDays(dataSchema, defaults);
      if days.Raised? {
        dataSchema := [];
        return Raised(days.error);
      }
      dataSchema := days.value;
      if InFrequencies(frequency, definition.monthlyFrequencies) {
        var toggle := Marker(FORCE_WEEK_NUMBERS, false, Some(ForceWeekNumbersDefault(userInput, defaultsArg)));
        dataSchema := Assign(dataSchema, toggle, Boolean);
      }
      return Ok(false);
    }

    /** The step-4 input conversion and validation. */
    method ReadFinalInput(ui: Dict) returns (r: Outcome<(Dict, bool)>)
      ensures r == FinalInput(definition, data, ui)
    {
      var updates := ui;
      var frequency :- Lookup(data, FREQUENCY);
      if InFrequencies(frequency, definition.monthlyFrequencies) {
        var force :- Lookup(data, FORCE_WEEK_NUMBERS);
        updates :- WeekdaysToList(updates, OrdinalListKey(Truthy(force)));
      }
      assert OrdinalInput(definition, data, ui) == Ok(updates);
      if HOLIDAY_POP_NAMED in updates {
        var names :- StringToList(updates[HOLIDAY_POP_NAMED]);
        updates := updates[HOLIDAY_POP_NAMED := names];
      }
      var validation := definition.validate(Ruleset(4, Some(frequency), false, false), updates);
      if validation.Valid? {
        return Ok((validation.output, true));
      }
      return Ok((updates, false));
    }

    /** The emptiness check of step 4 on the ordinal list in use. */
    method CheckOrdinals(updates: Dict) returns (r: Outcome<Option<string>>)
      ensures r == OrdinalCheck(definition, data, updates)
    {
      var frequency :- Lookup(data, FREQUENCY);
      if InFrequencies(frequency, definition.monthlyFrequencies) {
        var force :- Lookup(data, FORCE_WEEK_NUMBERS);
        var key := OrdinalListKey(Truthy(force));
        var n :- ListLength(updates, key);
        if n == 0 {
          return Ok(Some(key));
        }
      }
      return Ok(None);
    }

    /** The record clean-up after a successful step 4. */
    method Cleanup()
      modifies this
      ensures State() == Finalize(old(State()))
    {
      if FORCE_WEEK_NUMBERS in data {
        if Truthy(data[FORCE_WEEK_NUMBERS]) {
          if WEEKDAY_ORDER_NUMBER in data {
            data := data - {WEEKDAY_ORDER_NUMBER};
          }
        } else {
          if WEEK_ORDER_NUMBER in data {
            data := data - {WEEK_ORDER_NUMBER};
          }
        }
        data := data - {FORCE_WEEK_NUMBERS};
      }
      if NAME in data {
        data := data - {NAME};
      }
    }

    /** `step4_final(user_input, defaults)`. */
    method Step4Final(userInput: Option<Dict>, defaultsArg: Option<Dict>) returns (r: Outcome<bool>)
      modifies this
      ensures StepOutcome(r, State()) == Step4(definition, old(State()), userInput, defaultsArg)
    {
      errors := map[];
      dataSchema := [];
      if userInput.Some? && userInput.value != map[] {
        var input :- ReadFinalInput(userInput.value);
        var updates := input.0;
        if !input.1 {
          errors := errors[BASE := "value"];
        }
        var empty :- CheckOrdinals(updates);
        if empty.Some? {
          errors := errors[BASE := empty.value];
        }
        assert !input.1 || empty.Some? ==> BASE in errors;
        if errors == map[] {
          UpdateData(updates, 4);
          Cleanup();
          return Ok(true);
        }
      } else if defaultsArg.Some? {
        defaults := definition.setDefaults(4, defaultsArg.value, defaults);
        defaults := definition.joinList(HOLIDAY_POP_NAMED, defaults);
      }
      r := ShowFinal();
    }

    /** The display part of step 4. */
    method ShowFinal() returns (r: Outcome<bool>)
      modifies this
      ensures StepOutcome(r, State()) == Show4(definition, old(State()))
    {
      var frequency :- Lookup(data, FREQUENCY);
      dataSchema := definition.compileFlow(4, Some(frequency), defaults);
      if InFrequencies(frequency, definition.monthlyFrequencies) {
        var force :- Lookup(data, FORCE_WEEK_NUMBERS);
        var flags := ListToWeekdays(dataSchema, defaults, OrdinalListKey(Truthy(force)));
        if flags.Raised? {
          dataSchema := [];
          return Raised(flags.error);
        }
        dataSchema := flags.value;
      }
      return Ok(false);
    }
  }
}
