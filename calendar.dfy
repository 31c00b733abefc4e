/**
  The opening-hours calendar: which month it opens on, stepping between months, the Monday-first
  grid of day cells, and the per-month count of open days. The `days` record is given by its keys,
  the date strings "YYYY-MM-DD" in `Object.keys` order. Today's date and the weekday of a month's
  first day come from the clock and JavaScript's `Date` and are parameters.
*/
module OpeningHoursCalendar {
  import opened Wrappers
  import opened Text

  datatype YearMonth = YearMonth(year: int, month: int)

  // ---------------------------------------------------------------------------
  // Date strings
  // ---------------------------------------------------------------------------

  /** `${year}-${String(month).padStart(2, "0")}` */
  function MonthPrefix(year: int, month: int): string {
    IntToString(year) + "-" + Pad2(month)
  }

  /** `${year}-${mm}-${dd}`, the key of one day (and the form of `today`). */
  function DateKey(year: int, month: int, day: int): string {
    MonthPrefix(year, month) + "-" + Pad2(day)
  }

  /** `s.split("-")` */
  function SplitDash(s: string): (r: seq<string>)
    ensures |r| >= 1
  {
    if s == [] then [""]
    else if s[0] == '-' then [""] + SplitDash(s[1..])
    else
      var t := SplitDash(s[1..]);
      [[s[0]] + t[0]] + t[1..]
  }

  lemma {:induction false} SplitDashNoDash(s: string)
    requires '-' !in s
    ensures SplitDash(s) == [s]
  {
    if s != [] {
      SplitDashNoDash(s[1..]);
      assert [s[0]] + s[1..] == s;
    }
  }

  /** Splitting at the first dash of `a + "-" + b`, where `a` has no dash. */
  lemma {:induction false} SplitDashJoin(a: string, b: string)
    requires '-' !in a
    ensures SplitDash(a + "-" + b) == [a] + SplitDash(b)
  {
    if a == [] {
      assert a + "-" + b == ['-'] + b;
      assert (['-'] + b)[1..] == b;
    } else {
      var s := a + "-" + b;
      assert s[0] == a[0] && s[1..] == a[1..] + "-" + b;
      SplitDashJoin(a[1..], b);
      assert [a[0]] + a[1..] == a;
    }
  }

  /** `Number(s)` on a split field: the empty string is 0, digits give their value, `None` stands
      for `NaN`. */
  function JsNumber(s: string): Option<int> {
    if s == "" then Some(0) else if AllDigits(s) then Some(ParseDigits(s)) else None
  }

  /** `const [y, m] = s.split("-").map(Number)`; `None` when a field is missing or not a number. */
  function ParseYearMonth(s: string): Option<YearMonth> {
    var parts := SplitDash(s);
    if |parts| < 2 then None
    else
      match (JsNumber(parts[0]), JsNumber(parts[1]))
      case (Some(y), Some(m)) => Some(YearMonth(y, m))
      case _ => None
  }

  lemma DigitsHaveNoDash(s: string)
    requires AllDigits(s)
    ensures '-' !in s
  {
    forall i | 0 <= i < |s| ensures s[i] != '-' {
      assert IsDigit(s[i]);
    }
  }

  lemma JsNumberOfNat(n: nat)
    ensures JsNumber(NatToString(n)) == Some(n)
  {
    ParseNatToString(n);
  }

  /** Reading a month prefix back gives the year and the month. */
  lemma ParseMonthPrefix(year: nat, month: int)
    requires 1 <= month <= 12
    ensures ParseYearMonth(MonthPrefix(year, month)) == Some(YearMonth(year, month))
  {
    Pad2RoundTrip(month);
    DigitsHaveNoDash(NatToString(year));
    DigitsHaveNoDash(Pad2(month));
    SplitDashJoin(NatToString(year), Pad2(month));
    SplitDashNoDash(Pad2(month));
    JsNumberOfNat(year);
  }

  /** A day key splits into its year, month and day, so different days have different keys. */
  lemma DateKeyFields(year: nat, month: int, day: int)
    requires 0 <= month < 100 && 0 <= day < 100
    ensures SplitDash(DateKey(year, month, day)) == [NatToString(year), Pad2(month), Pad2(day)]
    ensures JsNumber(NatToString(year)) == Some(year)
    ensures JsNumber(Pad2(month)) == Some(month) && JsNumber(Pad2(day)) == Some(day)
  {
    Pad2RoundTrip(month);
    Pad2RoundTrip(day);
    DigitsHaveNoDash(NatToString(year));
    DigitsHaveNoDash(Pad2(month));
    DigitsHaveNoDash(Pad2(day));
    assert DateKey(year, month, day) == NatToString(year) + "-" + (Pad2(month) + "-" + Pad2(day));
    SplitDashJoin(NatToString(year), Pad2(month) + "-" + Pad2(day));
    SplitDashJoin(Pad2(month), Pad2(day));
    SplitDashNoDash(Pad2(day));
    JsNumberOfNat(year);
  }

  lemma DateKeyInjective(y1: nat, m1: int, d1: int, y2: nat, m2: int, d2: int)
    requires 0 <= m1 < 100 && 0 <= d1 < 100 && 0 <= m2 < 100 && 0 <= d2 < 100
    requires DateKey(y1, m1, d1) == DateKey(y2, m2, d2)
    ensures y1 == y2 && m1 == m2 && d1 == d2
  {
    DateKeyFields(y1, m1, d1);
    DateKeyFields(y2, m2, d2);
  }

  /** A well-formed key of the `days` record: "YYYY-MM-DD" with a month from 01 to 12. */
  predicate IsDateKey(k: string) {
    |k| == 10 && AllDigits(k[..4]) && k[4] == '-' && AllDigits(k[5..7]) && k[7] == '-' && AllDigits(k[8..])
    && 1 <= ParseDigits(k[5..7]) <= 12
  }

  /** `k.slice(0, 7)` */
  function Slice7(k: string): string {
    if |k| <= 7 then k else k[..7]
  }

  /** The month part of a well-formed key reads as a year and a month from 1 to 12. */
  lemma ParseKeyMonth(k: string)
    requires IsDateKey(k)
    ensures ParseYearMonth(Slice7(k)).Some?
    ensures 1 <= ParseYearMonth(Slice7(k)).value.month <= 12
  {
    var a, b := k[..4], k[5..7];
    assert Slice7(k) == a + "-" + b;
    DigitsHaveNoDash(a);
    DigitsHaveNoDash(b);
    SplitDashJoin(a, b);
    SplitDashNoDash(b);
  }

  // ---------------------------------------------------------------------------
  // Initial month
  // ---------------------------------------------------------------------------

  /** The distinct month prefixes of the keys (as a sequence; order and repeats do not matter to
      what is chosen from it). */
  function Prefixes(keys: seq<string>): (r: seq<string>)
    ensures |r| == |keys|
    ensures forall i :: 0 <= i < |keys| ==> r[i] == Slice7(keys[i])
  {
    if keys == [] then [] else [Slice7(keys[0])] + Prefixes(keys[1..])
  }

  /** `months.sort().find(m => m > current)`: the least listed month after the current one. */
  function LeastAbove(ps: seq<string>, current: string): Option<string> {
    if ps == [] then None
    else
      var rest := LeastAbove(ps[1..], current);
      if Less(current, ps[0]) && (rest.None? || Less(ps[0], rest.value)) then Some(ps[0]) else rest
  }

  lemma {:induction false} LeastAboveRule(ps: seq<string>, current: string)
    ensures LeastAbove(ps, current).None? <==> forall i :: 0 <= i < |ps| ==> !Less(current, ps[i])
    ensures LeastAbove(ps, current).Some? ==>
      var m := LeastAbove(ps, current).value;
      m in ps && Less(current, m) && forall i :: 0 <= i < |ps| && Less(current, ps[i]) ==> !Less(ps[i], m)
  {
    if ps != [] {
      LeastAboveRule(ps[1..], current);
      var rest := LeastAbove(ps[1..], current);
      assert forall i :: 1 <= i < |ps| ==> ps[i] == ps[1..][i - 1];
      if rest.Some? {
        var m := LeastAbove(ps, current).value;
        forall i | 0 <= i < |ps| && Less(current, ps[i]) ensures !Less(ps[i], m) {
          if m == ps[0] && i > 0 {
            assert !Less(ps[i], rest.value);
            if Less(ps[i], m) {
              LessTransitive(ps[i], m, rest.value);
            }
          } else if m == rest.value && i == 0 {
            if Less(ps[0], m) {
              LessAsymmetric(ps[0], m);
            }
          } else if m == ps[0] {
            LessIrreflexive(ps[0]);
          }
        }
        assert Less(current, m);
        assert m in ps;
      } else if LeastAbove(ps, current).Some? {
        LessIrreflexive(ps[0]);
      }
    }
  }

  /** `months[months.length - 1]` of the sorted months: the greatest listed month. */
  function Greatest(ps: seq<string>): string
    requires |ps| > 0
  {
    if |ps| == 1 then ps[0]
    else
      var rest := Greatest(ps[1..]);
      if Less(rest, ps[0]) then ps[0] else rest
  }

  lemma {:induction false} GreatestRule(ps: seq<string>)
    requires |ps| > 0
    ensures Greatest(ps) in ps
    ensures forall i :: 0 <= i < |ps| ==> !Less(Greatest(ps), ps[i])
  {
    if |ps| > 1 {
      GreatestRule(ps[1..]);
      var rest := Greatest(ps[1..]);
      var g := Greatest(ps);
      assert forall i :: 1 <= i < |ps| ==> ps[i] == ps[1..][i - 1];
      forall i | 0 <= i < |ps| ensures !Less(g, ps[i]) {
        if g == ps[0] && i > 0 {
          if Less(g, ps[i]) {
            LessTransitive(rest, g, ps[i]);
          }
        } else if g == rest && i == 0 {
          if Less(rest, ps[0]) {
          } else {
            LessIrreflexive(ps[0]);
          }
        } else if i == 0 {
          LessIrreflexive(ps[0]);
        }
      }
    } else {
      LessIrreflexive(ps[0]);
    }
  }

  /** The month the calendar is opened on, as a listed month prefix, or `None` for the current
      month. */
  function InitialPrefix(keys: seq<string>, currentYear: int, currentMonth: int): Option<string> {
    var current := MonthPrefix(currentYear, currentMonth);
    if |keys| == 0 then None
    else if exists i :: 0 <= i < |keys| && StartsWith(keys[i], current) then None
    else
      var ps := Prefixes(keys);
      var future := LeastAbove(ps, current);
      if Truthy(future) then future else Some(Greatest(ps))
  }

  /** `initialMonth`: the year and the month state start from (`None` for the `NaN` fields that a
      key not in "YYYY-MM-DD" form can produce). */
  function InitialMonth(keys: seq<string>, currentYear: int, currentMonth: int): Option<YearMonth> {
    match InitialPrefix(keys, currentYear, currentMonth)
    case None => Some(YearMonth(currentYear, currentMonth))
    case Some(p) => ParseYearMonth(p)
  }

  /** The calendar opens on a listed month exactly when there are keys and none is in the
      current month. */
  lemma InitialPrefixNone(keys: seq<string>, currentYear: int, currentMonth: int)
    ensures var current := MonthPrefix(currentYear, currentMonth);
      InitialPrefix(keys, currentYear, currentMonth).None? <==>
        (|keys| == 0 || exists i :: 0 <= i < |keys| && StartsWith(keys[i], current))
  {
    var current := MonthPrefix(currentYear, currentMonth);
    if |keys| > 0 && !(exists i :: 0 <= i < |keys| && StartsWith(keys[i], current)) {
      var ps := Prefixes(keys);
      var future := LeastAbove(ps, current);
      if !Truthy(future) {
        assert InitialPrefix(keys, currentYear, currentMonth) == Some(Greatest(ps));
      }
    }
  }

  /** The listed month chosen is the least one after the current month, or the latest one when
      none comes after it. */
  lemma InitialPrefixSome(keys: seq<string>, currentYear: int, currentMonth: int)
    ensures var current := MonthPrefix(currentYear, currentMonth);
      var p := InitialPrefix(keys, currentYear, currentMonth);
      p.Some? ==>
        p.value in Prefixes(keys)
        && ((exists i :: 0 <= i < |keys| && Less(current, Slice7(keys[i]))) ==>
              Less(current, p.value)
              && forall i :: 0 <= i < |keys| && Less(current, Slice7(keys[i])) ==> !Less(Slice7(keys[i]), p.value))
        && ((forall i :: 0 <= i < |keys| ==> !Less(current, Slice7(keys[i]))) ==>
              forall i :: 0 <= i < |keys| ==> !Less(p.value, Slice7(keys[i])))
  {
    var current := MonthPrefix(currentYear, currentMonth);
    var p := InitialPrefix(keys, currentYear, currentMonth);
    var ps := Prefixes(keys);
    if p.Some? {
      assert |keys| > 0;
      var future := LeastAbove(ps, current);
      LeastAboveRule(ps, current);
      if future.Some? {
        LessNonEmpty(current, future.value);
        assert p == future;
      } else {
        GreatestRule(ps);
        assert p == Some(Greatest(ps));
      }
    }
  }

  /** No keys, or a key in the current month: the current month. Otherwise the earliest listed
      month after the current one, and when there is none, the latest listed month. */
  lemma InitialPrefixRule(keys: seq<string>, currentYear: int, currentMonth: int)
    ensures var current := MonthPrefix(currentYear, currentMonth);
      InitialPrefix(keys, currentYear, currentMonth).None? <==>
        (|keys| == 0 || exists i :: 0 <= i < |keys| && StartsWith(keys[i], current))
    ensures var current := MonthPrefix(currentYear, currentMonth);
      var p := InitialPrefix(keys, currentYear, currentMonth);
      p.Some? ==>
        p.value in Prefixes(keys)
        && ((exists i :: 0 <= i < |keys| && Less(current, Slice7(keys[i]))) ==>
              Less(current, p.value)
              && forall i :: 0 <= i < |keys| && Less(current, Slice7(keys[i])) ==> !Less(Slice7(keys[i]), p.value))
        && ((forall i :: 0 <= i < |keys| ==> !Less(current, Slice7(keys[i]))) ==>
              forall i :: 0 <= i < |keys| ==> !Less(p.value, Slice7(keys[i])))
  {
    InitialPrefixNone(keys, currentYear, currentMonth);
    InitialPrefixSome(keys, currentYear, currentMonth);
  }

  /** Only a non-empty string comes after another. */
  lemma LessNonEmpty(a: string, b: string)
    requires Less(a, b)
    ensures b != ""
  {
  }

  /** With well-formed keys and a valid current month, the calendar opens on a month from 1 to 12. */
  lemma InitialMonthValid(keys: seq<string>, currentYear: int, currentMonth: int)
    requires forall i :: 0 <= i < |keys| ==> IsDateKey(keys[i])
    requires 1 <= currentMonth <= 12
    ensures InitialMonth(keys, currentYear, currentMonth).Some?
    ensures 1 <= InitialMonth(keys, currentYear, currentMonth).value.month <= 12
  {
    InitialPrefixRule(keys, currentYear, currentMonth);
    var p := InitialPrefix(keys, currentYear, currentMonth);
    if p.Some? {
      var ps := Prefixes(keys);
      var i :| 0 <= i < |ps| && ps[i] == p.value;
      ParseKeyMonth(keys[i]);
    }
  }

  // ---------------------------------------------------------------------------
  // Month arithmetic
  // ---------------------------------------------------------------------------

  /** `goNext`: December wraps to January of the next year. */
  function NextMonth(ym: YearMonth): YearMonth {
    if ym.month == 12 then YearMonth(ym.year + 1, 1) else YearMonth(ym.year, ym.month + 1)
  }

  /** `goPrev`: January wraps to December of the previous year. */
  function PrevMonth(ym: YearMonth): YearMonth {
    if ym.month == 1 then YearMonth(ym.year - 1, 12) else YearMonth(ym.year, ym.month - 1)
  }

  /** Months counted from year 0. */
  function MonthIndex(ym: YearMonth): int {
    ym.year * 12 + ym.month - 1
  }

  /** Stepping keeps the month in 1..12, moves by exactly one month, and the two steps undo each
      other. */
  lemma MonthSteps(ym: YearMonth)
    requires 1 <= ym.month <= 12
    ensures 1 <= NextMonth(ym).month <= 12 && 1 <= PrevMonth(ym).month <= 12
    ensures MonthIndex(NextMonth(ym)) == MonthIndex(ym) + 1
    ensures MonthIndex(PrevMonth(ym)) == MonthIndex(ym) - 1
    ensures PrevMonth(NextMonth(ym)) == ym && NextMonth(PrevMonth(ym)) == ym
  {
  }

  // ---------------------------------------------------------------------------
  // Grid cells
  // ---------------------------------------------------------------------------

  predicate IsLeapYear(y: int) {
    (y % 4 == 0 && y % 100 != 0) || y % 400 == 0
  }

  /** `new Date(year, month, 0).getDate()` for a month from 1 to 12 (Gregorian calendar). */
  function DaysInMonth(year: int, month: int): int {
    if month == 2 then (if IsLeapYear(year) then 29 else 28)
    else if month == 4 || month == 6 || month == 9 || month == 11 then 30
    else 31
  }

  /** The number of empty cells before day 1: Monday first, from `getDay()` (0 = Sunday). */
  function StartOffset(weekday: int): int {
    (weekday + 6) % 7
  }

  lemma StartOffsetRule(weekday: int)
    requires 0 <= weekday <= 6
    ensures 0 <= StartOffset(weekday) <= 6
    ensures weekday == 1 ==> StartOffset(weekday) == 0
    ensures weekday == 0 ==> StartOffset(weekday) == 6
    ensures weekday >= 1 ==> StartOffset(weekday) == weekday - 1
  {
  }

  /** The day numbers 1 .. n. */
  function DayCells(n: nat): (r: seq<Option<int>>)
    ensures |r| == n && forall i :: 0 <= i < n ==> r[i] == Some(i + 1)
  {
    if n == 0 then [] else DayCells(n - 1) + [Some(n)]
  }

  /** How many trailing empty cells bring `n` cells to a multiple of 7. */
  function Padding(n: nat): nat {
    (7 - n % 7) % 7
  }

  lemma PaddingRule(n: nat, k: nat)
    ensures Padding(n) < 7
    ensures (n + Padding(n)) % 7 == 0
    ensures k < Padding(n) ==> (n + k) % 7 != 0
  {
  }

  /** The grid: the leading empty cells, the days in order, and empty cells to a full week. */
  function CellsOf(offset: nat, days: nat): seq<Option<int>> {
    Nones(offset) + DayCells(days) + Nones(Padding(offset + days))
  }

  /** Whole weeks, fewer than a week of padding, day `d` at position `offset + d - 1`, and every
      other cell empty. */
  lemma CellsShape(offset: nat, days: nat)
    ensures |CellsOf(offset, days)| % 7 == 0
    ensures offset + days <= |CellsOf(offset, days)| < offset + days + 7
    ensures forall d :: 1 <= d <= days ==> CellsOf(offset, days)[offset + d - 1] == Some(d)
    ensures forall i :: 0 <= i < |CellsOf(offset, days)| && !(offset <= i < offset + days) ==>
      CellsOf(offset, days)[i] == None
  {
    PaddingRule(offset + days, 0);
  }

  /** The `cells` loops. */
  method BuildCells(offset: nat, days: nat) returns (cells: seq<Option<int>>)
    ensures cells == CellsOf(offset, days)
  {
    cells := [];
    for i := 0 to offset
      invariant cells == Nones(i)
    {
      cells := cells + [None];
    }
    for d := 1 to days + 1
      invariant cells == Nones(offset) + DayCells(d - 1)
    {
      assert DayCells(d) == DayCells(d - 1) + [Some(d)];
      assert Nones(offset) + DayCells(d - 1) + [Some(d)] == Nones(offset) + DayCells(d);
      cells := cells + [Some(d)];
    }
    var k := 0;
    while |cells| % 7 != 0
      invariant k <= Padding(offset + days)
      invariant cells == Nones(offset) + DayCells(days) + Nones(k)
      invariant |cells| == offset + days + k
      decreases Padding(offset + days) - k
    {
      PaddingRule(offset + days, k);
      ghost var front := Nones(offset) + DayCells(days);
      assert Nones<int>(k + 1) == Nones(k) + [None];
      assert front + Nones(k) + [None] == front + Nones(k + 1);
      cells := cells + [None];
      k := k + 1;
    }
    PaddingRule(offset + days, k);
  }

  // ---------------------------------------------------------------------------
  // Open days
  // ---------------------------------------------------------------------------

  /** `keys.filter(k => k.startsWith(prefix)).length` */
  function CountWithPrefix(keys: seq<string>, prefix: string): nat {
    if keys == [] then 0
    else (if StartsWith(keys[0], prefix) then 1 else 0) + CountWithPrefix(keys[1..], prefix)
  }

  /** For distinct keys the count is the number of keys in that month. */
  lemma {:induction false} CountWithPrefixIsCard(keys: seq<string>, prefix: string)
    requires forall i, j :: 0 <= i < j < |keys| ==> keys[i] != keys[j]
    ensures CountWithPrefix(keys, prefix) == |set i | 0 <= i < |keys| && StartsWith(keys[i], prefix) :: keys[i]|
  {
    if keys != [] {
      var rest := keys[1..];
      CountWithPrefixIsCard(rest, prefix);
      var s := set i | 0 <= i < |keys| && StartsWith(keys[i], prefix) :: keys[i];
      var t := set i | 0 <= i < |rest| && StartsWith(rest[i], prefix) :: rest[i];
      assert keys[0] !in t;
      if StartsWith(keys[0], prefix) {
        assert s == t + {keys[0]};
      } else {
        assert s == t;
      }
    }
  }

  /** Every open day of the shown month is counted. */
  lemma {:induction false} OpenDayCounted(keys: seq<string>, year: int, month: int, day: int)
    requires DateKey(year, month, day) in keys
    ensures CountWithPrefix(keys, MonthPrefix(year, month)) > 0
  {
    var k := DateKey(year, month, day);
    var p := MonthPrefix(year, month);
    assert k[..|p|] == p;
    if keys[0] != k {
      OpenDayCounted(keys[1..], year, month, day);
    }
  }

  /** The footer line. */
  function FooterText(openDays: nat): string {
    if openDays > 0 then NatToString(openDays) + " aukiolopäivää tässä kuussa" else "Ei aukiolopäiviä tässä kuussa"
  }

  const Placeholder := "Ei aukioloaikoja asetettu."

  // ---------------------------------------------------------------------------
  // The component
  // ---------------------------------------------------------------------------

  class CalendarView {
    const keys: seq<string>
    var year: int
    var month: int

    ghost predicate Valid()
      reads this
    {
      1 <= month <= 12
    }

    /** The state starts at the initial month, when it reads as a year and month. */
    constructor (keys: seq<string>, start: YearMonth)
      requires 1 <= start.month <= 12
      ensures Valid() && this.keys == keys && year == start.year && month == start.month
    {
      this.keys := keys;
      year := start.year;
      month := start.month;
    }

    /** The calendar as mounted: `useState(initialMonth.year)` and `useState(initialMonth.month)`,
        for well-formed keys and the current year and month. */
    constructor Mount(keys: seq<string>, currentYear: int, currentMonth: int)
      requires forall i :: 0 <= i < |keys| ==> IsDateKey(keys[i])
      requires 1 <= currentMonth <= 12
      ensures Valid() && this.keys == keys
      ensures Some(YearMonth(year, month)) == InitialMonth(keys, currentYear, currentMonth)
    {
      InitialMonthValid(keys, currentYear, currentMonth);
      var start := InitialMonth(keys, currentYear, currentMonth).value;
      this.keys := keys;
      year := start.year;
      month := start.month;
    }

    method GoNext()
      requires Valid()
      modifies this`year, this`month
      ensures Valid()
      ensures YearMonth(year, month) == NextMonth(YearMonth(old(year), old(month)))
    {
      if month == 12 {
        month := 1;
        year := year + 1;
      } else {
        month := month + 1;
      }
    }

    method GoPrev()
      requires Valid()
      modifies this`year, this`month
      ensures Valid()
      ensures YearMonth(year, month) == PrevMonth(YearMonth(old(year), old(month)))
    {
      if month == 1 {
        month := 12;
        year := year - 1;
      } else {
        month := month - 1;
      }
    }

    /** The cells of the shown month, given the weekday of its first day. */
    method Cells(firstWeekday: int) returns (cells: seq<Option<int>>)
      requires Valid() && 0 <= firstWeekday <= 6
      ensures cells == CellsOf(StartOffset(firstWeekday), DaysInMonth(year, month))
    {
      cells := BuildCells(StartOffset(firstWeekday), DaysInMonth(year, month));
    }

    function OpenDaysCount(): nat
      reads this
    {
      CountWithPrefix(keys, MonthPrefix(year, month))
    }

    /** `!!days[dateStr]`: whether a day of the shown month has opening hours. */
    predicate IsOpen(day: int)
      reads this
    {
      DateKey(year, month, day) in keys
    }

    /** With no keys only the placeholder is rendered. */
    predicate ShowsPlaceholder()
      reads this
    {
      |keys| == 0
    }

    /** A day of the shown month with opening hours makes the footer count positive; with no keys
        at all no day is open and the count is 0. */
    lemma OpenDayShown(day: int)
      ensures IsOpen(day) ==> OpenDaysCount() > 0
      ensures ShowsPlaceholder() ==> !IsOpen(day) && OpenDaysCount() == 0
    {
      if IsOpen(day) {
        OpenDayCounted(keys, year, month, day);
      }
    }
  }
}
