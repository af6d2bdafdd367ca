/**
 * The date-range picker of `mobile/src/components/CalendarRangePicker.tsx`:
 * the 42-cell month grid, the two-tap range selection and the highlight
 * test, over local calendar dates. Dates are ordered by their day number in
 * the proleptic Gregorian calendar JavaScript's `Date` uses; every `Date` the
 * picker compares is a local midnight, so comparing times is comparing days.
 */
module Calendar {
  import opened Wrappers
  import opened Types

  // ---------------------------------------------------------------------------
  // Civil calendar
  // ---------------------------------------------------------------------------

  predicate IsLeap(y: int) {
    y % 4 == 0 && (y % 100 != 0 || y % 400 == 0)
  }

  function DaysInMonth(y: int, m: Month): (r: int)
    ensures 28 <= r <= 31
  {
    if m == 2 then (if IsLeap(y) then 29 else 28)
    else if m == 4 || m == 6 || m == 9 || m == 11 then 30
    else 31
  }

  /** A date whose day exists in its month. */
  predicate Valid(d: Ymd) {
    d.day <= DaysInMonth(d.year, d.month)
  }

  /** The days of year `y` before the first of month `m`. */
  function DaysBeforeMonth(y: int, m: Month): int {
    [0, 31, 59, 90, 120, 151, 181, 212, 243, 273, 304, 334][m - 1] + (if m > 2 && IsLeap(y) then 1 else 0)
  }

  /** The leap years among 1..y, shifted by a constant for `y < 1` (floor division). */
  function Leaps(y: int): int {
    y / 4 - y / 100 + y / 400
  }

  function DaysBeforeYear(y: int): int {
    365 * (y - 1970) + Leaps(y - 1) - Leaps(1969)
  }

  /** The number of days from 1970-01-01 to the date. */
  function DayNumber(d: Ymd): int {
    DaysBeforeYear(d.year) + DaysBeforeMonth(d.year, d.month) + d.day - 1
  }

  /** `getDay()`: 0 for Sunday; 1970-01-01 was a Thursday. */
  function Weekday(n: int): (r: int)
    ensures 0 <= r < 7
  {
    (n + 4) % 7
  }

  /** Stepping from `y - 1` to `y` adds one to `y / k` exactly when `k` divides `y`. */
  lemma DivStep(y: int, k: int)
    requires k == 4 || k == 100 || k == 400
    ensures y / k - (y - 1) / k == if y % k == 0 then 1 else 0
  {
    if k == 4 {
      assert y / 4 - (y - 1) / 4 == if y % 4 == 0 then 1 else 0;
    } else if k == 100 {
      assert y / 100 - (y - 1) / 100 == if y % 100 == 0 then 1 else 0;
    } else {
      assert y / 400 - (y - 1) / 400 == if y % 400 == 0 then 1 else 0;
    }
  }

  /** A year has 366 days when it is a leap year and 365 otherwise. */
  lemma YearLength(y: int)
    ensures DaysBeforeYear(y + 1) - DaysBeforeYear(y) == if IsLeap(y) then 366 else 365
  {
    LeapStep(y);
  }

  /** `Leaps` counts one more at `y` than at `y - 1` exactly when `y` is a leap year. */
  lemma LeapStep(y: int)
    ensures Leaps(y) - Leaps(y - 1) == if IsLeap(y) then 1 else 0
  {
    DivStep(y, 4);
    DivStep(y, 100);
    DivStep(y, 400);
    DivisorChain(y);
    CountLeap(y % 4 == 0, y % 100 == 0, y % 400 == 0);
  }

  /** A multiple of 400 is a multiple of 100, and a multiple of 100 one of 4. */
  lemma DivisorChain(y: int)
    ensures y % 400 == 0 ==> y % 100 == 0
    ensures y % 100 == 0 ==> y % 4 == 0
  {
    if y % 400 == 0 {
      MultipleOf(y, 400, 100);
    }
    if y % 100 == 0 {
      MultipleOf(y, 100, 4);
    }
  }

  lemma MultipleOf(y: int, big: int, small: int)
    requires (big == 400 && small == 100) || (big == 100 && small == 4)
    requires y % big == 0
    ensures y % small == 0
  {
    var q := y / big;
    var r := big / small;
    assert y == small * (r * q) by {
      assert y == big * q;
      assert big == small * r;
    }
  }

  /** The Gregorian rule as a count: plus one for 4, minus one for 100, plus one for 400. */
  lemma CountLeap(by4: bool, by100: bool, by400: bool)
    requires by400 ==> by100
    requires by100 ==> by4
    ensures (if by4 then 1 else 0) - (if by100 then 1 else 0) + (if by400 then 1 else 0)
      == if by4 && (!by100 || by400) then 1 else 0
  {
  }

  /** Month `m + 1` starts right after the last day of month `m`. */
  lemma MonthStep(y: int, m: Month)
    requires m < 12
    ensures DaysBeforeMonth(y, m + 1) == DaysBeforeMonth(y, m) + DaysInMonth(y, m)
  {
  }

  /** The last month ends where the year ends. */
  lemma YearEnd(y: int)
    ensures DaysBeforeYear(y) + DaysBeforeMonth(y, 12) + 31 == DaysBeforeYear(y + 1)
  {
    YearLength(y);
  }

  /** The day after `d` (`setDate(getDate() + 1)`). */
  function NextDay(d: Ymd): (r: Ymd)
    requires Valid(d)
    ensures Valid(r)
    ensures DayNumber(r) == DayNumber(d) + 1
  {
    if d.day < DaysInMonth(d.year, d.month) then Ymd(d.year, d.month, d.day + 1)
    else if d.month < 12 then
      MonthStep(d.year, d.month);
      Ymd(d.year, d.month + 1, 1)
    else
      YearEnd(d.year);
      Ymd(d.year + 1, 1, 1)
  }

  /** The start of a year lies strictly before the start of a later year, a whole year earlier at least. */
  lemma {:induction false} YearsIncrease(a: int, b: int)
    requires a < b
    ensures DaysBeforeYear(a) + 365 <= DaysBeforeYear(b)
    decreases b - a
  {
    YearLength(a);
    if a + 1 < b {
      YearsIncrease(a + 1, b);
    }
  }

  /** The days of a valid date lie within its year. */
  lemma WithinYear(d: Ymd)
    requires Valid(d)
    ensures DaysBeforeYear(d.year) <= DayNumber(d) < DaysBeforeYear(d.year + 1)
  {
    YearEnd(d.year);
  }

  /** Two valid dates with the same day number fall in the same year. */
  lemma SameYear(a: Ymd, b: Ymd)
    requires Valid(a) && Valid(b)
    ensures DayNumber(a) == DayNumber(b) ==> a.year == b.year
  {
    if a.year < b.year {
      YearsSeparate(a, b);
    } else if b.year < a.year {
      YearsSeparate(b, a);
    }
  }

  /** Every day of a year comes before every day of a later year. */
  lemma YearsSeparate(x: Ymd, y: Ymd)
    requires Valid(x) && Valid(y) && x.year < y.year
    ensures DayNumber(x) < DayNumber(y)
  {
    assert DayNumber(x) < DaysBeforeYear(x.year + 1) by {
      WithinYear(x);
    }
    assert DaysBeforeYear(y.year) <= DayNumber(y) by {
      WithinYear(y);
    }
    YearsMonotone(x.year + 1, y.year);
  }

  lemma YearsMonotone(a: int, b: int)
    requires a <= b
    ensures DaysBeforeYear(a) <= DaysBeforeYear(b)
  {
    if a < b {
      YearsIncrease(a, b);
    }
  }

  /** Two valid dates are the same date exactly when they have the same day number. */
  lemma DayNumberInjective(a: Ymd, b: Ymd)
    requires Valid(a) && Valid(b)
    ensures DayNumber(a) == DayNumber(b) <==> a == b
  {
    if DayNumber(a) == DayNumber(b) {
      SameYear(a, b);
      if a.month < b.month {
        MonthsIncrease(a.year, a.month, b.month);
      } else if b.month < a.month {
        MonthsIncrease(a.year, b.month, a.month);
      }
    }
  }

  /** The days of month `m` all come before the first of a later month. */
  lemma {:induction false} MonthsIncrease(y: int, m: Month, n: Month)
    requires m < n
    ensures DaysBeforeMonth(y, m) + DaysInMonth(y, m) <= DaysBeforeMonth(y, n)
    decreases n - m
  {
    MonthStep(y, m);
    if m + 1 < n {
      MonthsIncrease(y, m + 1, n);
    }
  }

  /**
   * `isSameDay`: the same year, month and day of month, which for valid
   * dates is having the same day number.
   */
  function IsSameDay(a: Ymd, b: Ymd): (r: bool)
    ensures r <==> a == b
    ensures Valid(a) && Valid(b) ==> (r <==> DayNumber(a) == DayNumber(b))
  {
    var r := a.year == b.year && a.month == b.month && a.day == b.day;
    if Valid(a) && Valid(b) then DayNumberInjective(a, b); r else r
  }

  /** The calendar order of dates: by year, then month, then day of month. */
  predicate NotAfter(a: Ymd, b: Ymd) {
    a.year < b.year || (a.year == b.year && (a.month < b.month || (a.month == b.month && a.day <= b.day)))
  }

  /** Day numbers follow the calendar order of valid dates. */
  lemma DayOrder(a: Ymd, b: Ymd)
    requires Valid(a) && Valid(b)
    ensures DayNumber(a) <= DayNumber(b) <==> NotAfter(a, b)
  {
    if a.year < b.year {
      YearsSeparate(a, b);
    } else if b.year < a.year {
      YearsSeparate(b, a);
    } else if a.month < b.month {
      MonthsIncrease(a.year, a.month, b.month);
    } else if b.month < a.month {
      MonthsIncrease(a.year, b.month, a.month);
    }
  }

  // ---------------------------------------------------------------------------
  // Month view and navigation
  // ---------------------------------------------------------------------------

  /** The month on screen. */
  datatype View = View(year: int, month: Month)

  function First(v: View): Ymd {
    Ymd(v.year, v.month, 1)
  }

  /** Months counted from year 0. */
  function MonthIndex(v: View): int {
    12 * v.year + v.month - 1
  }

  /** `clampToMonth`: the first of the date's month. */
  function ClampToMonth(d: Ymd): (r: View)
    requires Valid(d)
    ensures DayNumber(First(r)) <= DayNumber(d) < DayNumber(First(r)) + DaysInMonth(r.year, r.month)
    ensures IsSameDay(First(r), d) <==> d.day == 1
  {
    View(d.year, d.month)
  }

  /** The `›` button: the first of the following month. */
  function NextMonth(v: View): (r: View)
    ensures MonthIndex(r) == MonthIndex(v) + 1
    ensures DayNumber(First(r)) == DayNumber(First(v)) + DaysInMonth(v.year, v.month)
  {
    if v.month < 12 then
      MonthStep(v.year, v.month);
      View(v.year, v.month + 1)
    else
      YearEnd(v.year);
      View(v.year + 1, 1)
  }

  /** The `‹` button: the first of the preceding month. */
  function PrevMonth(v: View): (r: View)
    ensures MonthIndex(r) == MonthIndex(v) - 1
    ensures DayNumber(First(v)) == DayNumber(First(r)) + DaysInMonth(r.year, r.month)
  {
    if v.month > 1 then
      MonthStep(v.year, v.month - 1);
      View(v.year, v.month - 1)
    else
      YearEnd(v.year - 1);
      View(v.year - 1, 12)
  }

  /** The two buttons undo each other. */
  lemma NavigationRoundTrip(v: View)
    ensures PrevMonth(NextMonth(v)) == v
    ensures NextMonth(PrevMonth(v)) == v
  {
  }

  /** The view a picker opens on: the month of the range's end, else its start, else today. */
  function InitialView(end: Option<Ymd>, start: Option<Ymd>, today: Ymd): (r: View)
    requires end.Some? ==> Valid(end.value)
    requires start.Some? ==> Valid(start.value)
    requires Valid(today)
    ensures end.Some? ==> r == View(end.value.year, end.value.month)
    ensures end.None? && start.Some? ==> r == View(start.value.year, start.value.month)
    ensures end.None? && start.None? ==> r == View(today.year, today.month)
  {
    ClampToMonth(if end.Some? then end.value else if start.Some? then start.value else today)
  }

  // ---------------------------------------------------------------------------
  // The grid
  // ---------------------------------------------------------------------------

  datatype Cell = Cell(date: Ymd, inMonth: bool)

  /** The weekday of the first of the month: the number of leading cells. */
  function Lead(v: View): (r: int)
    ensures 0 <= r < 7
  {
    Weekday(DayNumber(First(v)))
  }

  /** `n` valid cells for consecutive days from day number `from`, all with the same in-month flag. */
  predicate Run(cells: seq<Cell>, from: int, inMonth: bool) {
    forall k :: 0 <= k < |cells| ==>
      Valid(cells[k].date) && DayNumber(cells[k].date) == from + k && cells[k].inMonth == inMonth
  }

  /** The last `n` days of the month before `v`, oldest first. */
  method LeadingCells(v: View, n: int) returns (out: seq<Cell>)
    requires 0 <= n < 7
    ensures |out| == n && Run(out, DayNumber(First(v)) - n, false)
  {
    var p := PrevMonth(v);
    var pdim := DaysInMonth(p.year, p.month);
    out := [];
    var i := 0;
    while i < n
      invariant 0 <= i <= n && |out| == i
      invariant Run(out, DayNumber(First(v)) - n, false)
    {
      var d := Ymd(p.year, p.month, pdim - n + 1 + i);
      assert DayNumber(d) == DayNumber(First(p)) + pdim - n + i;
      out := out + [Cell(d, false)];
      i := i + 1;
    }
  }

  /** The days of the month of `v`, in order. */
  method MonthCells(v: View) returns (out: seq<Cell>)
    ensures |out| == DaysInMonth(v.year, v.month)
    ensures forall k :: 0 <= k < |out| ==> out[k] == Cell(Ymd(v.year, v.month, k + 1), true)
  {
    out := [];
    var day := 1;
    while day <= DaysInMonth(v.year, v.month)
      invariant 1 <= day <= DaysInMonth(v.year, v.month) + 1 && |out| == day - 1
      invariant forall k :: 0 <= k < |out| ==> out[k] == Cell(Ymd(v.year, v.month, k + 1), true)
    {
      out := out + [Cell(Ymd(v.year, v.month, day), true)];
      day := day + 1;
    }
  }

  /** The month's days make a run from its first day. */
  lemma MonthIsRun(v: View, cells: seq<Cell>)
    requires |cells| == DaysInMonth(v.year, v.month)
    requires forall k :: 0 <= k < |cells| ==> cells[k] == Cell(Ymd(v.year, v.month, k + 1), true)
    ensures Run(cells, DayNumber(First(v)), true)
  {
  }

  /** `n` days following the valid date `last`, not in the month. */
  method TrailingCells(last: Ymd, n: nat) returns (out: seq<Cell>)
    requires Valid(last)
    ensures |out| == n && Run(out, DayNumber(last) + 1, false)
  {
    out := [];
    var d := last;
    while |out| < n
      invariant |out| <= n && Valid(d) && DayNumber(d) == DayNumber(last) + |out|
      invariant Run(out, DayNumber(last) + 1, false)
      decreases n - |out|
    {
      d := NextDay(d);
      out := out + [Cell(d, false)];
    }
  }

  /**
   * The `cells` memo: the days before the first of the month back to a
   * Sunday, the days of the month, and the days after it up to 42 cells.
   * The cells are consecutive days.
   */
  method Cells(v: View) returns (out: seq<Cell>)
    ensures |out| == 42
    ensures forall k :: 0 <= k < 42 ==>
      Valid(out[k].date) && DayNumber(out[k].date) == DayNumber(First(v)) - Lead(v) + k
    ensures forall k :: 0 <= k < 42 ==>
      (out[k].inMonth <==> Lead(v) <= k < Lead(v) + DaysInMonth(v.year, v.month))
    ensures forall k :: Lead(v) <= k < Lead(v) + DaysInMonth(v.year, v.month) ==>
      out[k].date == Ymd(v.year, v.month, k - Lead(v) + 1)
  {
    var fw := Lead(v);
    var dim := DaysInMonth(v.year, v.month);
    var lead := LeadingCells(v, fw);
    var month := MonthCells(v);
    MonthIsRun(v, month);
    var lastDay := Ymd(v.year, v.month, dim);
    var trail := TrailingCells(lastDay, 42 - fw - dim);
    GridIsRun(lead, month, trail, DayNumber(First(v)) - fw);
    out := lead + month + trail;
    forall k | fw <= k < fw + dim
      ensures out[k].date == Ymd(v.year, v.month, k - fw + 1)
    {
      PieceAt(lead, month, trail, k);
    }
  }

  /** The three pieces of the grid, joined, are consecutive days flagged by the middle piece. */
  lemma GridIsRun(lead: seq<Cell>, month: seq<Cell>, trail: seq<Cell>, base: int)
    requires Run(lead, base, false) && Run(month, base + |lead|, true)
    requires Run(trail, base + |lead| + |month|, false)
    ensures forall k :: 0 <= k < |lead + month + trail| ==>
      Valid((lead + month + trail)[k].date) && DayNumber((lead + month + trail)[k].date) == base + k
      && ((lead + month + trail)[k].inMonth <==> |lead| <= k < |lead| + |month|)
  {
    forall k | 0 <= k < |lead + month + trail|
      ensures Valid((lead + month + trail)[k].date) && DayNumber((lead + month + trail)[k].date) == base + k
      ensures (lead + month + trail)[k].inMonth <==> |lead| <= k < |lead| + |month|
    {
      PieceAt(lead, month, trail, k);
    }
  }

  /** Where position `k` of `a + b + c` comes from. */
  lemma PieceAt<T>(a: seq<T>, b: seq<T>, c: seq<T>, k: int)
    requires 0 <= k < |a| + |b| + |c|
    ensures k < |a| ==> (a + b + c)[k] == a[k]
    ensures |a| <= k < |a| + |b| ==> (a + b + c)[k] == b[k - |a|]
    ensures |a| + |b| <= k ==> (a + b + c)[k] == c[k - |a| - |b|]
  {
  }

  /** Every row of the grid starts on a Sunday. */
  lemma RowsStartOnSunday(v: View, row: int)
    requires 0 <= row < 6
    ensures Weekday(DayNumber(First(v)) - Lead(v) + 7 * row) == 0
  {
    WeekStart(DayNumber(First(v)), row);
  }

  /** Going back to the week's Sunday and then whole weeks forward lands on a Sunday. */
  lemma WeekStart(n: int, row: int)
    ensures Weekday(n - Weekday(n) + 7 * row) == 0
  {
    var q := (n + 4) / 7;
    assert n + 4 == 7 * q + Weekday(n);
    assert n - Weekday(n) + 7 * row + 4 == 7 * (q + row);
  }

  // ---------------------------------------------------------------------------
  // Range selection
  // ---------------------------------------------------------------------------

  /** The selection, each end a local midnight. */
  datatype Range = Range(start: Option<Ymd>, end: Option<Ymd>)

  /** An end only with a start, and never before it. */
  predicate Ordered(r: Range) {
    r.end.Some? ==> r.start.Some? && DayNumber(r.start.value) <= DayNumber(r.end.value)
  }

  /**
   * `onPick`: a tap starts a new range unless only the start is set, in
   * which case the tapped day and the start become the two ends in order.
   */
  function OnPick(r: Range, picked: Ymd): (n: Range)
    ensures Ordered(n)
    ensures r.start.None? || r.end.Some? ==> n == Range(Some(picked), None)
    ensures r.start.Some? && r.end.None? ==>
      n.start.Some? && n.end.Some?
      && ((n.start.value == r.start.value && n.end.value == picked)
          || (n.start.value == picked && n.end.value == r.start.value))
  {
    match r
    case Range(Some(start), None) =>
      if DayNumber(picked) < DayNumber(start) then Range(Some(picked), Some(start))
      else Range(Some(start), Some(picked))
    case _ => Range(Some(picked), None)
  }

  /**
   * `inRange`: whether a cell's day is highlighted. Nothing is without a
   * start, only the start is without an end, and otherwise the days from the
   * start to the end in calendar order, both included.
   */
  function InRange(r: Range, d: Ymd): (res: bool)
    ensures r.start.None? ==> !res
    ensures r.start.Some? && r.end.None? ==> (res <==> d == r.start.value)
    ensures r.start.Some? && r.end.Some? && Valid(r.start.value) && Valid(r.end.value) && Valid(d) ==>
      (res <==> NotAfter(r.start.value, d) && NotAfter(d, r.end.value))
  {
    match r
    case Range(None, _) => false
    case Range(Some(start), None) => IsSameDay(d, start)
    case Range(Some(start), Some(end)) =>
      var res := DayNumber(start) <= DayNumber(d) <= DayNumber(end);
      if Valid(start) && Valid(end) && Valid(d) then DayOrder(start, d); DayOrder(d, end); res else res
  }

  function Min(a: int, b: int): int {
    if a < b then a else b
  }

  function Max(a: int, b: int): int {
    if a < b then b else a
  }

  /**
   * After one tap on an empty picker only that day is highlighted; after a
   * second tap exactly the days between the two taps, inclusive, whichever
   * was tapped first; a third tap starts over.
   */
  lemma TwoTaps(a: Ymd, b: Ymd, c: Ymd, d: Ymd)
    requires Valid(a) && Valid(b) && Valid(d)
    ensures InRange(OnPick(Range(None, None), a), d) <==> DayNumber(d) == DayNumber(a)
    ensures var r := OnPick(OnPick(Range(None, None), a), b);
      InRange(r, d) <==> Min(DayNumber(a), DayNumber(b)) <= DayNumber(d) <= Max(DayNumber(a), DayNumber(b))
    ensures OnPick(OnPick(OnPick(Range(None, None), a), b), c) == Range(Some(c), None)
  {
    assert IsSameDay(d, a) <==> DayNumber(d) == DayNumber(a);
    var r := OnPick(OnPick(Range(None, None), a), b);
    if DayNumber(b) < DayNumber(a) {
      assert r == Range(Some(b), Some(a));
    } else {
      assert r == Range(Some(a), Some(b));
    }
  }
}
