/**
 * The evidence sorter's output sanitiser: evidence items get their default
 * fields, their type, relevance, authenticity and date normalised, and the
 * list is sorted by relevance, highest first; missing-evidence items get
 * their defaults; the confidence is clamped.
 */
module EvidenceSorter {
  import opened Outcomes
  import opened Text
  import opened Json
  import opened Seqs

  // ---------------------------------------------------------------------
  // Calendar dates
  // ---------------------------------------------------------------------

  predicate IsLeap(y: int) {
    y % 4 == 0 && (y % 100 != 0 || y % 400 == 0)
  }

  function DaysIn(y: int, m: int): int {
    if m == 2 then (if IsLeap(y) then 29 else 28)
    else if m == 4 || m == 6 || m == 9 || m == 11 then 30
    else 31
  }

  /** `datetime(y, m, d)` succeeds: a proleptic Gregorian date in years 1 to 9999. */
  predicate ValidDate(y: int, m: int, d: int) {
    1 <= y <= 9999 && 1 <= m <= 12 && 1 <= d <= DaysIn(y, m)
  }

  /**
   * `year-MM-DD`: a year of three or four digits, then month and day of two
   * digits each, naming a real calendar date.
   */
  predicate IsoDate(r: string) {
    |r| >= 9 && AllDigits(r[..|r| - 6]) && 3 <= |r| - 6 <= 4 &&
    r[|r| - 6] == '-' && r[|r| - 3] == '-' &&
    AllDigits(r[|r| - 5..|r| - 3]) && AllDigits(r[|r| - 2..]) &&
    ValidDate(DigitsValue(r[..|r| - 6]), DigitsValue(r[|r| - 5..|r| - 3]), DigitsValue(r[|r| - 2..]))
  }

  /** `s.zfill(2)` for a string of one or two digits. */
  function ZFill2(s: string): (r: string)
    requires 1 <= |s| <= 2 && AllDigits(s)
    ensures |r| == 2 && AllDigits(r) && DigitsValue(r) == DigitsValue(s)
    ensures |s| == 2 ==> r == s
  {
    if |s| == 1 then
      assert DigitsValue("0" + s) == DigitsValue(s) by {
        assert ("0" + s)[..1] == "0";
        assert ("0" + s)[..1][..0] == [];
        assert s[..0] == [];
      }
      "0" + s
    else s
  }

  // ---------------------------------------------------------------------
  // The three date shapes `_validate_date` searches for
  // ---------------------------------------------------------------------

  /**
   * `(\d{4})-(\d{2})-(\d{2})`, `(\d{2})/(\d{2})/(\d{4})` and
   * `(\d{1,2})/(\d{1,2})/(\d{2,4})`, tried in this order.
   */
  datatype DateShape = YearFirst | MonthFirst | ShortMonthFirst

  const DateShapes: seq<DateShape> := [YearFirst, MonthFirst, ShortMonthFirst]

  /** The three captured groups of a match. */
  datatype Groups = Groups(first: string, second: string, third: string)

  /** What a match captures: all digits, four-two-two or one/two-one/two-two to four. */
  predicate Shaped(g: Groups) {
    AllDigits(g.first) && AllDigits(g.second) && AllDigits(g.third) &&
    ((|g.first| == 4 && |g.second| == 2 && |g.third| == 2) ||
     (1 <= |g.first| <= 2 && 1 <= |g.second| <= 2 && 2 <= |g.third| <= 4))
  }

  /** The number of digits at `i`, at most `max`. */
  function DigitRun(s: string, i: nat, max: nat): (n: nat)
    requires i <= |s|
    ensures n <= max && i + n <= |s| && AllDigits(s[i..i + n])
    decreases max
  {
    if max == 0 || i == |s| || !IsDigit(s[i]) then 0
    else
      assert s[i..i + 1 + DigitRun(s, i + 1, max - 1)] == [s[i]] + s[i + 1..i + 1 + DigitRun(s, i + 1, max - 1)];
      1 + DigitRun(s, i + 1, max - 1)
  }

  /** The run is greedy: it stops at `max` digits, at the end, or before a non-digit. */
  lemma {:induction false} DigitRunMaximal(s: string, i: nat, max: nat)
    requires i <= |s|
    ensures var n := DigitRun(s, i, max); n < max && i + n < |s| ==> !IsDigit(s[i + n])
    decreases max
  {
    if max > 0 && i < |s| && IsDigit(s[i]) {
      DigitRunMaximal(s, i + 1, max - 1);
    }
  }

  /** Fixed-width digits, separator, digits, separator, digits, at `i`. */
  function FixedAt(s: string, i: nat, a: nat, b: nat, c: nat, sep: char): (r: Option<Groups>)
    ensures r.Some? ==> i + a + b + c + 2 <= |s| && r.value.first == s[i..i + a]
    ensures r.Some? ==> AllDigits(r.value.first) && AllDigits(r.value.second) && AllDigits(r.value.third)
    ensures r.Some? ==> |r.value.first| == a && |r.value.second| == b && |r.value.third| == c
  {
    var j := i + a + 1;
    var m := j + b + 1;
    if m + c <= |s| && AllDigits(s[i..i + a]) && s[i + a] == sep && AllDigits(s[j..j + b]) &&
       s[j + b] == sep && AllDigits(s[m..m + c])
    then Some(Groups(s[i..i + a], s[j..j + b], s[m..m + c]))
    else None
  }

  /**
   * Whether the shape matches starting exactly at `i`, and its groups. In the
   * short form a greedy `\d{1,2}` can only succeed on the whole run of (at
   * most two) digits, because a digit is never the '/' that must follow, and
   * the trailing `\d{2,4}` takes as many digits as it can.
   */
  function GroupsAt(s: string, i: nat, shape: DateShape): (r: Option<Groups>)
    requires i <= |s|
    ensures r.Some? ==> Shaped(r.value)
  {
    match shape
    case YearFirst => FixedAt(s, i, 4, 2, 2, '-')
    case MonthFirst => FixedAt(s, i, 2, 2, 4, '/')
    case ShortMonthFirst => ShortAt(s, i)
  }

  /** `(\d{1,2})/(\d{1,2})/(\d{2,4})` starting exactly at `i`. */
  function ShortAt(s: string, i: nat): (r: Option<Groups>)
    requires i <= |s|
    ensures r.Some? ==> Shaped(r.value)
  {
    var a := DigitRun(s, i, 2);
    if a == 0 || i + a == |s| || s[i + a] != '/' then None
    else
      var j := i + a + 1;
      var b := DigitRun(s, j, 2);
      if b == 0 || j + b == |s| || s[j + b] != '/' then None
      else
        var m := j + b + 1;
        var c := DigitRun(s, m, 4);
        if c < 2 then None
        else
          ShortShaped(s[i..i + a], s[j..j + b], s[m..m + c]);
          Some(Groups(s[i..i + a], s[j..j + b], s[m..m + c]))
  }

  /** Groups of one or two, one or two and two to four digits have the short shape. */
  lemma ShortShaped(x: string, y: string, z: string)
    requires AllDigits(x) && AllDigits(y) && AllDigits(z)
    requires 1 <= |x| <= 2 && 1 <= |y| <= 2 && 2 <= |z| <= 4
    ensures Shaped(Groups(x, y, z))
  {
  }

  /** `re.search`: the leftmost position at or after `from` where the shape matches. */
  function FirstMatch(s: string, shape: DateShape, from: nat): (r: Option<nat>)
    ensures r.Some? ==> from <= r.value <= |s| && GroupsAt(s, r.value, shape).Some?
    decreases |s| + 1 - from
  {
    if from > |s| then None
    else if GroupsAt(s, from, shape).Some? then Some(from)
    else FirstMatch(s, shape, from + 1)
  }

  /** The search finds the leftmost match: no position before it matches. */
  lemma {:induction false} FirstMatchLeftmost(s: string, shape: DateShape, from: nat, j: nat)
    requires FirstMatch(s, shape, from).Some? && from <= j < FirstMatch(s, shape, from).value
    ensures GroupsAt(s, j, shape).None?
    decreases |s| + 1 - from
  {
    if j > from {
      FirstMatchLeftmost(s, shape, from + 1, j);
    }
  }

  /** The search finds nothing only when no position from `from` on matches. */
  lemma {:induction false} FirstMatchNoneSound(s: string, shape: DateShape, from: nat, j: nat)
    requires FirstMatch(s, shape, from).None? && from <= j <= |s|
    ensures GroupsAt(s, j, shape).None?
    decreases |s| + 1 - from
  {
    if j > from {
      FirstMatchNoneSound(s, shape, from + 1, j);
    }
  }

  /** The year, month and day an ISO date names. */
  function DateOf(r: string): (int, int, int)
    requires IsoDate(r)
  {
    (DigitsValue(r[..|r| - 6]), DigitsValue(r[|r| - 5..|r| - 3]), DigitsValue(r[|r| - 2..]))
  }

  /**
   * `r` is what `datetime(y, m, d)` and the f-string make of a date: nothing
   * exactly when the date does not exist, and otherwise ISO text naming it.
   */
  predicate Denotes(r: Option<string>, y: int, m: int, d: int) {
    (r.Some? <==> ValidDate(y, m, d)) &&
    (r.Some? ==> IsoDate(r.value) && DateOf(r.value) == (y, m, d))
  }

  /** A year, a month and a day of two digits each, joined by dashes, name that date. */
  lemma IsoDateOf(year: string, mm: string, dd: string)
    requires AllDigits(year) && 3 <= |year| <= 4
    requires |mm| == 2 && |dd| == 2 && AllDigits(mm) && AllDigits(dd)
    requires ValidDate(DigitsValue(year), DigitsValue(mm), DigitsValue(dd))
    ensures IsoDate(year + "-" + mm + "-" + dd)
    ensures DateOf(year + "-" + mm + "-" + dd) == (DigitsValue(year), DigitsValue(mm), DigitsValue(dd))
  {
    var r := year + "-" + mm + "-" + dd;
    var n := |year|;
    assert |r| - 6 == n;
    assert r[..n] == year && r[n] == '-' && r[n + 3] == '-' && r[n + 1..n + 3] == mm && r[n + 4..] == dd by {
      SplitDate(year, mm, dd);
    }
    IsoDateParts(r, year, mm, dd);
  }

  /** Where the parts of `year-mm-dd` sit. */
  lemma SplitDate(year: string, mm: string, dd: string)
    requires |mm| == 2 && |dd| == 2
    ensures var r := year + "-" + mm + "-" + dd; var n := |year|;
      r[..n] == year && r[n] == '-' && r[n + 3] == '-' && r[n + 1..n + 3] == mm && r[n + 4..] == dd
  {
    var r := year + "-" + mm + "-" + dd;
    var n := |year|;
    assert r[..n] == year;
    assert r[n + 1..n + 3] == mm;
  }

  /** A string whose parts are a valid date's digits reads as that date. */
  lemma IsoDateParts(r: string, year: string, mm: string, dd: string)
    requires |r| >= 9 && 3 <= |r| - 6 <= 4 && r[|r| - 6] == '-' && r[|r| - 3] == '-'
    requires r[..|r| - 6] == year && r[|r| - 5..|r| - 3] == mm && r[|r| - 2..] == dd
    requires AllDigits(year) && AllDigits(mm) && AllDigits(dd)
    requires ValidDate(DigitsValue(year), DigitsValue(mm), DigitsValue(dd))
    ensures IsoDate(r)
  {
  }

  /** The value of two digits. */
  lemma DigitsValueTwo(s: string)
    requires |s| == 2 && AllDigits(s)
    ensures DigitsValue(s) == (s[0] as int - '0' as int) * 10 + (s[1] as int - '0' as int)
  {
    var h := s[..1];
    assert h[..0] == [] && h[0] == s[0];
    assert DigitsValue(h) == s[0] as int - '0' as int;
  }

  /** The value of four digits. */
  lemma DigitsValueFour(s: string)
    requires |s| == 4 && AllDigits(s)
    ensures DigitsValue(s) == DigitsValue(s[..2]) * 100 + DigitsValue(s[2..])
  {
    assert s[..3][..2] == s[..2];
    DigitsValueTwo(s[..2]);
    DigitsValueTwo(s[2..]);
  }

  /** "20" in front of two digits is a year of the 2000s. */
  lemma CenturyYear(t: string)
    requires |t| == 2 && AllDigits(t)
    ensures AllDigits("20" + t) && DigitsValue("20" + t) == 2000 + DigitsValue(t)
  {
    var y := "20" + t;
    assert y[..2] == "20" && y[2..] == t;
    DigitsValueFour(y);
    DigitsValueTwo("20");
  }

  /**
   * The date a match stands for, or None where `datetime` rejects it: a
   * four-digit first group is year-month-day, anything else month/day/year
   * with "20" put in front of a two-digit year.
   */
  function FromGroups(g: Groups): (r: Option<string>)
    requires Shaped(g)
    ensures r.Some? ==> IsoDate(r.value)
    ensures |g.first| == 4 ==>
      Denotes(r, DigitsValue(g.first), DigitsValue(g.second), DigitsValue(g.third))
    ensures |g.first| != 4 ==>
      Denotes(r, (if |g.third| == 2 then 2000 else 0) + DigitsValue(g.third),
                 DigitsValue(g.first), DigitsValue(g.second))
  {
    var year := if |g.first| == 4 then g.first else if |g.third| == 2 then "20" + g.third else g.third;
    var month := if |g.first| == 4 then g.second else g.first;
    var day := if |g.first| == 4 then g.third else g.second;
    assert AllDigits(year) && 3 <= |year| <= 4 &&
      DigitsValue(year) == if |g.first| == 4 then DigitsValue(g.first)
        else (if |g.third| == 2 then 2000 else 0) + DigitsValue(g.third) by {
      if |g.first| != 4 && |g.third| == 2 {
        CenturyYear(g.third);
      }
    }
    if ValidDate(DigitsValue(year), DigitsValue(month), DigitsValue(day)) then
      IsoDateOf(year, ZFill2(month), ZFill2(day));
      Some(year + "-" + ZFill2(month) + "-" + ZFill2(day))
    else None
  }

  /** The date the leftmost match of one shape in `s` stands for, if it is a real date. */
  function ShapeDate(s: string, shape: DateShape): (r: Option<string>)
    ensures r.Some? ==> IsoDate(r.value) && FirstMatch(s, shape, 0).Some?
  {
    match FirstMatch(s, shape, 0)
    case None => None
    case Some(i) => FromGroups(GroupsAt(s, i, shape).value)
  }

  /** The shapes of `shapes` in order; the first whose match is a real date wins. */
  function TryShapes(s: string, shapes: seq<DateShape>): (r: string)
    ensures r == "unknown" || IsoDate(r)
  {
    if shapes == [] then "unknown"
    else match ShapeDate(s, shapes[0])
      case Some(r) => r
      case None => TryShapes(s, shapes[1..])
  }

  /** The result is the date of the first shape that gives one. */
  lemma {:induction false} TryShapesFirst(s: string, shapes: seq<DateShape>, k: nat)
    requires k < |shapes| && ShapeDate(s, shapes[k]).Some?
    requires forall j :: 0 <= j < k ==> ShapeDate(s, shapes[j]).None?
    ensures TryShapes(s, shapes) == ShapeDate(s, shapes[k]).value
  {
    if k > 0 {
      var t := shapes[1..];
      assert ShapeDate(s, shapes[0]).None?;
      forall j | 0 <= j < k - 1
        ensures ShapeDate(s, t[j]).None?
      {
        assert t[j] == shapes[j + 1];
      }
      assert t[k - 1] == shapes[k];
      TryShapesFirst(s, t, k - 1);
    }
  }

  /** The result is "unknown" exactly when no shape gives a date. */
  lemma {:induction false} TryShapesNone(s: string, shapes: seq<DateShape>)
    ensures TryShapes(s, shapes) == "unknown" <==> forall k :: 0 <= k < |shapes| ==> ShapeDate(s, shapes[k]).None?
  {
    if shapes != [] {
      var t := shapes[1..];
      TryShapesNone(s, t);
      if ShapeDate(s, shapes[0]).None? {
        forall k | 1 <= k < |shapes|
          ensures shapes[k] == t[k - 1]
        {
        }
        assert forall k :: 0 <= k < |t| ==> t[k] == shapes[k + 1];
      }
    }
  }

  /**
   * `_validate_date` on a string: empty or "unknown" in any case gives
   * "unknown"; otherwise the date of the first of the three shapes whose
   * leftmost match is a real date, or "unknown" when none is.
   */
  function ValidateDateText(s: string): (r: string)
    ensures r == "unknown" || IsoDate(r)
    ensures s == "" || Lower(s) == "unknown" ==> r == "unknown"
    ensures s != "" && Lower(s) != "unknown" ==> r == FirstShapeDate(s)
  {
    if s == "" || Lower(s) == "unknown" then "unknown"
    else
      FirstShapeWins(s);
      TryShapes(s, DateShapes)
  }

  /** The date of the first of the three shapes that gives one, or "unknown". */
  function FirstShapeDate(s: string): string {
    FirstOf(ShapeDate(s, YearFirst), ShapeDate(s, MonthFirst), ShapeDate(s, ShortMonthFirst))
  }

  /** The first of three optional dates that is present, or "unknown". */
  function FirstOf(a: Option<string>, b: Option<string>, c: Option<string>): string {
    if a.Some? then a.value else if b.Some? then b.value else if c.Some? then c.value else "unknown"
  }

  /** Trying the shapes in order gives the date of the first that gives one. */
  lemma FirstShapeWins(s: string)
    ensures TryShapes(s, DateShapes) == FirstShapeDate(s)
  {
    FirstShapeWinsOf(s, DateShapes);
    assert DateShapes[0] == YearFirst && DateShapes[1] == MonthFirst && DateShapes[2] == ShortMonthFirst;
  }

  lemma FirstShapeWinsOf(s: string, shapes: seq<DateShape>)
    requires |shapes| == 3
    ensures TryShapes(s, shapes) == FirstOf(ShapeDate(s, shapes[0]), ShapeDate(s, shapes[1]), ShapeDate(s, shapes[2]))
  {
    var a, b, c := ShapeDate(s, shapes[0]), ShapeDate(s, shapes[1]), ShapeDate(s, shapes[2]);
    if a.Some? {
      TryShapesFirst(s, shapes, 0);
    } else {
      LaterShapeWins(s, shapes, a, b, c);
    }
  }

  /** When the first shape gives nothing, the second or third decides. */
  lemma LaterShapeWins(s: string, shapes: seq<DateShape>, a: Option<string>, b: Option<string>, c: Option<string>)
    requires |shapes| == 3 && a.None?
    requires a == ShapeDate(s, shapes[0]) && b == ShapeDate(s, shapes[1]) && c == ShapeDate(s, shapes[2])
    ensures TryShapes(s, shapes) == FirstOf(a, b, c)
  {
    if b.Some? {
      assert forall j :: 0 <= j < 1 ==> ShapeDate(s, shapes[j]).None?;
      TryShapesFirst(s, shapes, 1);
    } else {
      LastShapeWins(s, shapes, a, b, c);
    }
  }

  /** When neither of the first two shapes gives a date, the third decides. */
  lemma LastShapeWins(s: string, shapes: seq<DateShape>, a: Option<string>, b: Option<string>, c: Option<string>)
    requires |shapes| == 3 && a.None? && b.None?
    requires a == ShapeDate(s, shapes[0]) && b == ShapeDate(s, shapes[1]) && c == ShapeDate(s, shapes[2])
    ensures TryShapes(s, shapes) == FirstOf(a, b, c)
  {
    forall j | 0 <= j < 2
      ensures ShapeDate(s, shapes[j]).None?
    {
      assert j == 0 || j == 1;
    }
    if c.Some? {
      TryShapesFirst(s, shapes, 2);
    } else {
      TryShapesNone(s, shapes);
    }
  }

  /**
   * `_validate_date` on any field value: falsy values read as unknown, and
   * `lower` raises on any other value that is not a string.
   */
  function ValidateDate(v: Json): (r: Result<string>)
    ensures r.Ok? <==> (!Truthy(v) || v.JStr?)
    ensures r.Ok? ==> r.value == "unknown" || IsoDate(r.value)
  {
    if !Truthy(v) then Ok("unknown")
    else if !v.JStr? then Err(NoAttribute(v, "lower"))
    else Ok(ValidateDateText(v.s))
  }

  /** A normalised date with a four-digit year is left as it is. */
  lemma NormalisedDateFixed(r: string)
    requires IsoDate(r) && |r| == 10
    ensures ValidateDateText(r) == r
  {
    assert |Lower(r)| != |"unknown"|;
    var g := GroupsAt(r, 0, YearFirst);
    assert r[0..4] == r[..4] && r[5..7] == r[4..10][1..3] && r[8..10] == r[8..];
    assert g == Some(Groups(r[0..4], r[5..7], r[8..10]));
    assert FirstMatch(r, YearFirst, 0) == Some(0);
    assert r == r[0..4] + "-" + r[5..7] + "-" + r[8..10];
  }

  /** The short shape's groups in "3/4/24". */
  lemma ShortYearGroups(s: string)
    requires s == "3/4/24"
    ensures GroupsAt(s, 0, ShortMonthFirst) == Some(Groups("3", "4", "24"))
  {
    assert IsDigit(s[0]) && s[1] == '/' && IsDigit(s[2]) && s[3] == '/' && IsDigit(s[4]) && IsDigit(s[5]);
    assert DigitRun(s, 0, 2) == 1;
    assert DigitRun(s, 2, 2) == 1;
    assert DigitRun(s, 6, 2) == 0;
    assert DigitRun(s, 5, 3) == 1;
    assert DigitRun(s, 4, 4) == 2;
    assert s[0..1] == "3" && s[2..3] == "4" && s[4..6] == "24";
  }

  /** The date the groups of "3/4/24" stand for. */
  lemma ShortYearDate()
    ensures FromGroups(Groups("3", "4", "24")) == Some("2024-03-04")
  {
    assert "20" + "24" == "2024";
    assert DigitsValue("2024") == 2024 by {
      DigitsValueFour("2024");
      DigitsValueTwo("20");
      DigitsValueTwo("24");
    }
    assert DigitsValue("3") == 3 && DigitsValue("4") == 4 by {
      assert "3"[..0] == [] && "4"[..0] == [];
    }
    assert ZFill2("3") == "03" && ZFill2("4") == "04";
    assert ValidDate(2024, 3, 4);
    assert "2024" + "-" + "03" + "-" + "04" == "2024-03-04";
  }

  /** Month/day/year with a two-digit year reads as a year in the 2000s. */
  lemma ShortYearExample(s: string)
    requires s == "3/4/24"
    ensures ValidateDateText(s) == "2024-03-04"
  {
    assert |Lower(s)| != |"unknown"|;
    NoFixedMatch(s, YearFirst);
    NoFixedMatch(s, MonthFirst);
    assert TryShapes(s, [ShortMonthFirst]) == "2024-03-04" by {
      ShortYearGroups(s);
      ShortYearDate();
      assert FirstMatch(s, ShortMonthFirst, 0) == Some(0);
    }
    assert DateShapes[1..][1..] == [ShortMonthFirst];
    assert TryShapes(s, DateShapes[1..]) == TryShapes(s, [ShortMonthFirst]);
    assert TryShapes(s, DateShapes) == TryShapes(s, DateShapes[1..]);
  }

  /** A string shorter than eight characters matches neither fixed-width shape. */
  lemma NoFixedMatch(s: string, shape: DateShape)
    requires |s| < 8 && shape != ShortMonthFirst
    ensures FirstMatch(s, shape, 0).None?
  {
    FirstMatchNone(s, shape, 0);
  }

  /** No position from `from` on matches, so the search finds nothing. */
  lemma {:induction false} FirstMatchNone(s: string, shape: DateShape, from: nat)
    requires forall j :: from <= j <= |s| ==> GroupsAt(s, j, shape).None?
    ensures FirstMatch(s, shape, from).None?
    decreases |s| + 1 - from
  {
    if from <= |s| {
      FirstMatchNone(s, shape, from + 1);
    }
  }

  /** A non-digit among the first four characters rules out the year-first shape at `i`. */
  lemma NotYearFirstAt(s: string, i: nat, k: nat)
    requires i <= k < i + 4 && k < |s| && !IsDigit(s[k])
    ensures GroupsAt(s, i, YearFirst).None?
  {
    if i + 4 <= |s| {
      assert s[i..i + 4][k - i] == s[k];
    }
  }

  /** In "01/02/2024-13-01" the year-first shape first matches at 6, on an impossible month. */
  lemma FallThroughYearFirst(s: string)
    requires s == "01/02/2024-13-01"
    ensures FirstMatch(s, YearFirst, 0) == Some(6)
    ensures GroupsAt(s, 6, YearFirst) == Some(Groups("2024", "13", "01"))
  {
    assert GroupsAt(s, 6, YearFirst) == Some(Groups("2024", "13", "01")) by {
      assert s[10] == '-' && s[13] == '-';
      assert s[6..10] == "2024" && s[11..13] == "13" && s[14..16] == "01";
    }
    assert s[2] == '/' && s[5] == '/';
    NotYearFirstAt(s, 0, 2);
    NotYearFirstAt(s, 1, 2);
    NotYearFirstAt(s, 2, 2);
    NotYearFirstAt(s, 3, 5);
    NotYearFirstAt(s, 4, 5);
    NotYearFirstAt(s, 5, 5);
    assert FirstMatch(s, YearFirst, 6) == Some(6);
    assert FirstMatch(s, YearFirst, 5) == Some(6);
    assert FirstMatch(s, YearFirst, 4) == Some(6);
    assert FirstMatch(s, YearFirst, 3) == Some(6);
    assert FirstMatch(s, YearFirst, 2) == Some(6);
    assert FirstMatch(s, YearFirst, 1) == Some(6);
  }

  /** "01/02/2024" at the start reads as month/day/year. */
  lemma FallThroughMonthFirst(s: string)
    requires s == "01/02/2024-13-01"
    ensures GroupsAt(s, 0, MonthFirst) == Some(Groups("01", "02", "2024"))
  {
    assert s[2] == '/' && s[5] == '/';
    assert s[0..2] == "01" && s[3..5] == "02" && s[6..10] == "2024";
  }

  /** The date month/day/year groups "01", "02", "2024" stand for. */
  lemma MonthFirstDate()
    ensures FromGroups(Groups("01", "02", "2024")) == Some("2024-01-02")
  {
    assert DigitsValue("2024") == 2024 by {
      DigitsValueFour("2024");
      DigitsValueTwo("20");
      DigitsValueTwo("24");
    }
    assert DigitsValue("01") == 1 && DigitsValue("02") == 2 by {
      DigitsValueTwo("01");
      DigitsValueTwo("02");
    }
    assert ValidDate(2024, 1, 2);
    assert "2024" + "-" + "01" + "-" + "02" == "2024-01-02";
  }

  /** An impossible year-first date falls through to the month-first shape. */
  lemma FallThroughExample(s: string)
    requires s == "01/02/2024-13-01"
    ensures ValidateDateText(s) == "2024-01-02"
  {
    assert |Lower(s)| != |"unknown"|;
    FallThroughYearFirst(s);
    FallThroughMonthFirst(s);
    MonthFirstDate();
    assert FromGroups(Groups("2024", "13", "01")).None? by {
      DigitsValueTwo("13");
    }
    assert FirstMatch(s, MonthFirst, 0) == Some(0);
    assert TryShapes(s, DateShapes) == TryShapes(s, DateShapes[1..]);
  }

  // ---------------------------------------------------------------------
  // Evidence items
  // ---------------------------------------------------------------------

  const ValidTypes: seq<string> := ["medical", "photographic", "financial", "correspondence",
    "testimonial", "police", "official", "expert", "physical", "digital"]

  const ValidAuthenticity: seq<string> := ["verified", "unverified", "questionable", "pending"]

  const EvidenceDefaults: Obj := map[
    "type" := JStr("unknown"), "description" := JStr(""), "date" := JStr("unknown"),
    "source" := JStr("unknown"), "relevance_score" := JNum(0.5),
    "authenticity_status" := JStr("unverified")]

  const MissingDefaults: Obj := map[
    "type" := JStr("unknown"), "description" := JStr(""), "referenced_in" := JStr("case file")]

  /** `v in ValidTypes`-style membership of a field value in a list of strings. */
  predicate OneOf(v: Json, names: seq<string>) {
    v.JStr? && v.s in names
  }

  /** A normalised evidence dict. */
  predicate NormalisedItem(f: Obj) {
    EvidenceDefaults.Keys <= f.Keys &&
    (OneOf(f["type"], ValidTypes) || f["type"] == JStr("unknown")) &&
    OneOf(f["authenticity_status"], ValidAuthenticity) &&
    f["relevance_score"].JNum? && 0.0 <= f["relevance_score"].n <= 1.0 &&
    f["date"].JStr? && (f["date"].s == "unknown" || IsoDate(f["date"].s))
  }

  /** A normalised evidence item. */
  predicate Normalised(v: Json) {
    v.JObj? && NormalisedItem(v.fields)
  }

  /** The relevance score of a normalised item. */
  function Relevance(v: Json): real
    requires Normalised(v)
  {
    v.fields["relevance_score"].n
  }

  /** The fields of a dict after the type, relevance and authenticity steps. */
  function Corrected(m: Obj): (f: Obj)
    ensures f.Keys == m.Keys + EvidenceDefaults.Keys
  {
    var f := SetDefaults(JObj(m), EvidenceDefaults).fields;
    var f := if OneOf(f["type"], ValidTypes) then f else f["type" := JStr("unknown")];
    var f := f["relevance_score" := JNum(Score(f["relevance_score"], 0.5))];
    if OneOf(f["authenticity_status"], ValidAuthenticity) then f
    else f["authenticity_status" := JStr("unverified")]
  }

  /** One pass of the loop body over an evidence item; items that are not dicts are skipped. */
  function NormaliseEvidence(v: Json): (r: Result<Json>)
    ensures !v.JObj? ==> r == Ok(v)
    ensures r.Ok? ==> (r.value.JObj? <==> v.JObj?)
  {
    match v
    case JObj(m) =>
      var f := Corrected(m);
      var date := ValidateDate(f["date"]);
      if date.Err? then Err(date.fault) else Ok(JObj(f["date" := JStr(date.value)]))
    case _ => Ok(v)
  }

  /** The corrections keep the date. */
  lemma CorrectedKeepsDate(m: Obj)
    ensures Corrected(m)["date"] == Get(m, "date", JStr("unknown"))
  {
    var f0 := SetDefaults(JObj(m), EvidenceDefaults).fields;
    var f1 := if OneOf(f0["type"], ValidTypes) then f0 else f0["type" := JStr("unknown")];
    var f2 := f1["relevance_score" := JNum(Score(f1["relevance_score"], 0.5))];
    var f3 := if OneOf(f2["authenticity_status"], ValidAuthenticity) then f2
      else f2["authenticity_status" := JStr("unverified")];
    assert Corrected(m) == f3;
    assert |"type"| == 4 && |"relevance_score"| == 15 && |"authenticity_status"| == 19 && |"date"| == 4;
    assert "date" != "type";
    assert f0["date"] == Get(m, "date", JStr("unknown"));
  }

  /** The corrections keep every field outside the defaults. */
  lemma CorrectedKeepsOthers(m: Obj)
    ensures forall k :: k in m && k !in EvidenceDefaults ==> Corrected(m)[k] == m[k]
  {
    assert "type" in EvidenceDefaults && "relevance_score" in EvidenceDefaults;
    assert "authenticity_status" in EvidenceDefaults;
  }

  /** The corrections keep the description, the source and an already valid type and authenticity. */
  lemma CorrectedKeepsValid(m: Obj)
    ensures "description" in m ==> Corrected(m)["description"] == m["description"]
    ensures "source" in m ==> Corrected(m)["source"] == m["source"]
    ensures OneOf(Get(m, "type", JNull), ValidTypes) ==> Corrected(m)["type"] == m["type"]
    ensures OneOf(Get(m, "authenticity_status", JNull), ValidAuthenticity) ==>
      Corrected(m)["authenticity_status"] == m["authenticity_status"]
  {
    var f0 := SetDefaults(JObj(m), EvidenceDefaults).fields;
    var f1 := if OneOf(f0["type"], ValidTypes) then f0 else f0["type" := JStr("unknown")];
    var f2 := f1["relevance_score" := JNum(Score(f1["relevance_score"], 0.5))];
    var f3 := if OneOf(f2["authenticity_status"], ValidAuthenticity) then f2
      else f2["authenticity_status" := JStr("unverified")];
    assert Corrected(m) == f3;
    assert |"type"| == 4 && |"relevance_score"| == 15 && |"authenticity_status"| == 19;
    assert |"description"| == 11 && |"source"| == 6;
    if "description" in m {
      assert f3["description"] == f2["description"] == f1["description"] == f0["description"];
    }
    if "source" in m {
      assert f3["source"] == f2["source"] == f1["source"] == f0["source"];
    }
    if OneOf(Get(m, "type", JNull), ValidTypes) {
      assert "type" in m && f0["type"] == m["type"];
      assert f3["type"] == f2["type"] == f1["type"];
    }
    if OneOf(Get(m, "authenticity_status", JNull), ValidAuthenticity) {
      assert "authenticity_status" in m && f0["authenticity_status"] == m["authenticity_status"];
      assert f2["authenticity_status"] == f1["authenticity_status"] == f0["authenticity_status"];
    }
  }

  /** The corrections leave a valid type, a score in [0, 1] and a valid authenticity. */
  lemma CorrectedValid(m: Obj)
    ensures var f := Corrected(m);
      (OneOf(f["type"], ValidTypes) || f["type"] == JStr("unknown")) &&
      OneOf(f["authenticity_status"], ValidAuthenticity) &&
      f["relevance_score"].JNum? && 0.0 <= f["relevance_score"].n <= 1.0
    ensures !OneOf(Get(m, "type", JStr("unknown")), ValidTypes) ==> Corrected(m)["type"] == JStr("unknown")
    ensures !OneOf(Get(m, "authenticity_status", JStr("unverified")), ValidAuthenticity) ==>
      Corrected(m)["authenticity_status"] == JStr("unverified")
    ensures Corrected(m)["relevance_score"] == JNum(Score(Get(m, "relevance_score", JNum(0.5)), 0.5))
  {
    var f0 := SetDefaults(JObj(m), EvidenceDefaults).fields;
    var f1 := if OneOf(f0["type"], ValidTypes) then f0 else f0["type" := JStr("unknown")];
    var f2 := f1["relevance_score" := JNum(Score(f1["relevance_score"], 0.5))];
    assert |"type"| == 4 && |"relevance_score"| == 15 && |"authenticity_status"| == 19;
    assert f0["relevance_score"] == Get(m, "relevance_score", JNum(0.5));
    assert f0["authenticity_status"] == Get(m, "authenticity_status", JStr("unverified"));
    assert f0["type"] == Get(m, "type", JStr("unknown"));
  }

  /** The loop body raises on a dict exactly when its date raises. */
  lemma NormaliseEvidenceRaises(v: Json)
    requires v.JObj?
    ensures NormaliseEvidence(v).Ok? <==> ValidateDate(Get(v.fields, "date", JStr("unknown"))).Ok?
  {
    CorrectedKeepsDate(v.fields);
  }

  /** What the loop body makes of a dict is a normalised item. */
  lemma NormaliseEvidenceNormalises(v: Json)
    requires v.JObj? && NormaliseEvidence(v).Ok?
    ensures Normalised(NormaliseEvidence(v).value)
  {
    var f := Corrected(v.fields);
    CorrectedValid(v.fields);
    var d := ValidateDate(f["date"]).value;
    var g := f["date" := JStr(d)];
    assert NormaliseEvidence(v).value == JObj(g);
    assert g["type"] == f["type"] && g["authenticity_status"] == f["authenticity_status"];
    assert g["relevance_score"] == f["relevance_score"];
  }

  /**
   * The loop body adds the missing defaults and keeps every other field, the
   * description, the source and an already valid type and authenticity.
   */
  lemma NormaliseEvidenceKeeps(v: Json)
    requires v.JObj? && NormaliseEvidence(v).Ok?
    ensures var r := NormaliseEvidence(v).value.fields;
      r.Keys == v.fields.Keys + EvidenceDefaults.Keys &&
      (forall k :: k in v.fields && k !in EvidenceDefaults ==> r[k] == v.fields[k]) &&
      ("description" in v.fields ==> r["description"] == v.fields["description"]) &&
      ("source" in v.fields ==> r["source"] == v.fields["source"]) &&
      (OneOf(Get(v.fields, "type", JNull), ValidTypes) ==> r["type"] == v.fields["type"]) &&
      (OneOf(Get(v.fields, "authenticity_status", JNull), ValidAuthenticity) ==>
        r["authenticity_status"] == v.fields["authenticity_status"])
  {
    var f := Corrected(v.fields);
    CorrectedKeepsOthers(v.fields);
    CorrectedKeepsValid(v.fields);
    var d := ValidateDate(f["date"]).value;
    assert NormaliseEvidence(v).value.fields == f["date" := JStr(d)];
  }

  /** The loop over `evidence_summary`, raising at the first item that raises. */
  function NormaliseAll(items: seq<Json>): (r: Result<seq<Json>>)
    ensures r.Ok? ==> |r.value| == |items|
    ensures r.Ok? ==> forall i :: 0 <= i < |items| ==> NormaliseEvidence(items[i]) == Ok(r.value[i])
  {
    if items == [] then Ok([])
    else
      var init := items[..|items| - 1];
      match NormaliseAll(init)
      case Err(e) => Err(e)
      case Ok(done) =>
        match NormaliseEvidence(items[|items| - 1])
        case Err(e) => Err(e)
        case Ok(x) => Ok(done + [x])
  }

  /** `x.get("relevance_score", 0)` as a sort key. */
  function RelevanceKey(v: Json): (r: Key)
    ensures Normalised(v) ==> r == Key(Relevance(v), 0)
  {
    var s := if v.JObj? then Get(v.fields, "relevance_score", JNum(0.0)) else JNum(0.0);
    Key(if s.JNum? then s.n else 0.0, 0)
  }

  /** The first item the sort key raises on, one that is not a dict. */
  function FirstNonDict(items: seq<Json>): (r: Option<Json>)
    ensures r.None? <==> forall i :: 0 <= i < |items| ==> items[i].JObj?
    ensures r.Some? ==> !r.value.JObj? && r.value in items
  {
    if items == [] then None
    else if !items[0].JObj? then Some(items[0])
    else FirstNonDict(items[1..])
  }

  /**
   * `evidence_summary` as the sanitiser leaves it: normalised item by item,
   * then sorted by relevance, highest first, stably.
   */
  function SortedEvidence(raw: Json): (r: Result<seq<Json>>)
    ensures r.Ok? <==> NormaliseAll(ListOr(raw)).Ok? && forall v :: v in ListOr(raw) ==> v.JObj?
  {
    var items := ListOr(raw);
    match NormaliseAll(items)
    case Err(e) => Err(e)
    case Ok(done) =>
      NormalisedDicts(items, done);
      match FirstNonDict(done)
      case Some(v) => Err(NoAttribute(v, "get"))
      case None => Ok(SortDesc(done, RelevanceKey))
  }

  /** The loop's output holds only dicts exactly when its input does. */
  lemma NormalisedDicts(items: seq<Json>, done: seq<Json>)
    requires NormaliseAll(items) == Ok(done)
    ensures FirstNonDict(done).None? <==> forall v :: v in items ==> v.JObj?
  {
    forall i | 0 <= i < |items|
      ensures done[i].JObj? <==> items[i].JObj?
    {
      assert NormaliseEvidence(items[i]) == Ok(done[i]);
    }
    if forall v :: v in items ==> v.JObj? {
      forall i | 0 <= i < |done|
        ensures done[i].JObj?
      {
        assert items[i] in items;
      }
    }
  }

  /** The sorted evidence is every normalised item, by relevance highest first. */
  lemma SortedEvidenceOrdered(raw: Json)
    requires SortedEvidence(raw).Ok?
    ensures var r := SortedEvidence(raw).value;
      multiset(r) == multiset(NormaliseAll(ListOr(raw)).value) &&
      (forall i :: 0 <= i < |r| ==> Normalised(r[i])) &&
      (forall i, j :: 0 <= i < j < |r| ==> Relevance(r[j]) <= Relevance(r[i]))
  {
    var items := ListOr(raw);
    var done := NormaliseAll(items).value;
    assert FirstNonDict(done).None?;
    var r := SortDesc(done, RelevanceKey);
    assert SortedEvidence(raw).value == r;
    NormalisedSorted(items, done, r);
  }

  /** Sorting normalised dicts keeps them normalised and orders them by their scores. */
  lemma NormalisedSorted(items: seq<Json>, done: seq<Json>, r: seq<Json>)
    requires NormaliseAll(items) == Ok(done) && forall v :: v in items ==> v.JObj?
    requires multiset(r) == multiset(done) && SortedDesc(r, RelevanceKey)
    ensures forall i :: 0 <= i < |r| ==> Normalised(r[i])
    ensures forall i, j :: 0 <= i < j < |r| ==> Relevance(r[j]) <= Relevance(r[i])
  {
    forall i | 0 <= i < |r|
      ensures Normalised(r[i])
    {
      assert r[i] in multiset(done);
      var k :| 0 <= k < |done| && done[k] == r[i];
      NormalisedAt(items, done, k);
    }
    ScoresDescend(r);
  }

  /** Each item the loop produced from a dict is a normalised dict. */
  lemma NormalisedAt(items: seq<Json>, done: seq<Json>, k: nat)
    requires NormaliseAll(items) == Ok(done) && forall v :: v in items ==> v.JObj?
    requires k < |done|
    ensures Normalised(done[k])
  {
    assert items[k] in items;
    assert NormaliseEvidence(items[k]) == Ok(done[k]);
    NormaliseEvidenceNormalises(items[k]);
  }

  /** Among normalised dicts, the relevance key is the score, so key order is score order. */
  lemma ScoresDescend(r: seq<Json>)
    requires forall i :: 0 <= i < |r| ==> Normalised(r[i])
    requires SortedDesc(r, RelevanceKey)
    ensures forall i, j :: 0 <= i < j < |r| ==> Relevance(r[j]) <= Relevance(r[i])
  {
    forall i, j | 0 <= i < j < |r|
      ensures Relevance(r[j]) <= Relevance(r[i])
    {
      assert !Above(RelevanceKey(r[j]), RelevanceKey(r[i]));
    }
  }

  /** Items of equal relevance keep their order. */
  lemma SortedEvidenceStable(raw: Json, score: real)
    requires SortedEvidence(raw).Ok?
    ensures WithKey(SortedEvidence(raw).value, RelevanceKey, Key(score, 0)) ==
      WithKey(NormaliseAll(ListOr(raw)).value, RelevanceKey, Key(score, 0))
  {
    SortStable(NormaliseAll(ListOr(raw)).value, RelevanceKey, Key(score, 0));
  }

  // ---------------------------------------------------------------------
  // The sanitiser
  // ---------------------------------------------------------------------

  const OutputKeys: set<string> := {"evidence_summary", "missing_evidence", "recommended_action", "confidence_score"}

  /**
   * `_validate_output`: the evidence items are normalised in place, one at a
   * time, then sorted; the missing-evidence items get their defaults.
   */
  method ValidateOutput(result: Obj) returns (r: Result<Obj>)
    ensures r.Ok? <==> SortedEvidence(Get(result, "evidence_summary", JArr([]))).Ok?
    ensures r.Ok? ==> r.value.Keys == OutputKeys
    ensures r.Ok? ==> r.value["evidence_summary"] == JArr(SortedEvidence(Get(result, "evidence_summary", JArr([]))).value)
    ensures r.Ok? ==> r.value["missing_evidence"] == JArr(FillAll(ListOr(Get(result, "missing_evidence", JArr([]))), MissingDefaults))
    ensures r.Ok? ==> r.value["recommended_action"] == Get(result, "recommended_action", JStr(""))
    ensures r.Ok? ==> r.value["confidence_score"] == JNum(Score(Get(result, "confidence_score", JNum(0.0)), 0.0))
  {
    var validated: Obj := map[
      "evidence_summary" := Get(result, "evidence_summary", JArr([])),
      "missing_evidence" := Get(result, "missing_evidence", JArr([])),
      "recommended_action" := Get(result, "recommended_action", JStr("")),
      "confidence_score" := Get(result, "confidence_score", JNum(0.0))];
    assert validated.Keys == OutputKeys;

    var evidence := SortEvidence(validated["evidence_summary"]);
    if evidence.Err? {
      return Err(evidence.fault);
    }
    validated := validated["evidence_summary" := JArr(evidence.value)];
    assert validated.Keys == OutputKeys;

    var missing := FillEach(ListOr(validated["missing_evidence"]), MissingDefaults);
    validated := validated["missing_evidence" := JArr(missing)];
    assert validated.Keys == OutputKeys;

    validated := validated["confidence_score" := JNum(Score(validated["confidence_score"], 0.0))];
    assert validated.Keys == OutputKeys;
    return Ok(validated);
  }

  /**
   * `evidence_summary` normalised item by item in place, then sorted by
   * `relevance_score`, which raises on an item that is not a dict.
   */
  method SortEvidence(raw: Json) returns (r: Result<seq<Json>>)
    ensures r == SortedEvidence(raw)
  {
    var normalised := NormaliseEach(ListOr(raw));
    if normalised.Err? {
      return Err(normalised.fault);
    }
    var evidence := normalised.value;
    var bad := FirstNonDict(evidence);
    if bad.Some? {
      return Err(NoAttribute(bad.value, "get"));
    }
    return Ok(SortDesc(evidence, RelevanceKey));
  }

  /** The loop over `evidence_summary`, replacing each item by its normalised form in place. */
  method NormaliseEach(items: seq<Json>) returns (r: Result<seq<Json>>)
    ensures r == NormaliseAll(items)
  {
    var evidence := items;
    for i := 0 to |items|
      invariant |evidence| == |items|
      invariant NormaliseAll(items[..i]) == Ok(evidence[..i])
      invariant forall j :: i <= j < |items| ==> evidence[j] == items[j]
    {
      assert items[..i + 1][..i] == items[..i];
      assert items[..i + 1][i] == items[i] == evidence[i];
      var item := NormaliseEvidence(evidence[i]);
      if item.Err? {
        NormaliseErrPersists(items, i + 1, item.fault);
        return Err(item.fault);
      }
      evidence := evidence[i := item.value];
      assert evidence[..i + 1] == evidence[..i] + [item.value];
    }
    assert items[..|items|] == items && evidence[..|items|] == evidence;
    return Ok(evidence);
  }

  /** Once a prefix raises, the whole loop raises the same exception. */
  lemma {:induction false} NormaliseErrPersists(items: seq<Json>, n: nat, e: Fault)
    requires n <= |items| && NormaliseAll(items[..n]) == Err(e)
    ensures NormaliseAll(items) == Err(e)
    decreases |items| - n
  {
    if n < |items| {
      assert items[..n + 1][..n] == items[..n];
      NormaliseErrPersists(items, n + 1, e);
    } else {
      assert items[..n] == items;
    }
  }
}
