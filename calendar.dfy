/**
 * The calendar screen: month navigation, the "YYYY-MM-DD" day keys that match
 * workouts to days, the month grid, and the rows listed for the selected day.
 */
module Calendar {
  import opened Wrappers
  import opened Text
  import opened Workouts
  import opened Numbers

  // ---------------------------------------------------------------------
  // Month navigation
  // ---------------------------------------------------------------------

  /** A displayed month: 0 is January, 11 December. */
  datatype MonthYear = MonthYear(month: int, year: int)

  predicate ValidMonth(p: MonthYear) {
    0 <= p.month < 12
  }

  /** `nextMonth`: December rolls over to January of the next year. */
  function Next(p: MonthYear): MonthYear {
    if p.month == 11 then MonthYear(0, p.year + 1) else MonthYear(p.month + 1, p.year)
  }

  /** `previousMonth`: January rolls back to December of the previous year. */
  function Previous(p: MonthYear): MonthYear {
    if p.month == 0 then MonthYear(11, p.year - 1) else MonthYear(p.month - 1, p.year)
  }

  /** The month index counted from year 0: navigation moves it by exactly one. */
  function Index(p: MonthYear): int {
    p.year * 12 + p.month
  }

  /** Navigation keeps the month in range, moves one month, and the two moves undo each other. */
  lemma NavigationSteps(p: MonthYear)
    requires ValidMonth(p)
    ensures ValidMonth(Next(p)) && ValidMonth(Previous(p))
    ensures Index(Next(p)) == Index(p) + 1 && Index(Previous(p)) == Index(p) - 1
    ensures Previous(Next(p)) == p && Next(Previous(p)) == p
  {
  }

  /** `n` steps forward from a valid month: still valid, and exactly `n` months later. */
  function Forward(p: MonthYear, n: nat): MonthYear {
    if n == 0 then p else Next(Forward(p, n - 1))
  }

  lemma {:induction false} ForwardIndex(p: MonthYear, n: nat)
    requires ValidMonth(p)
    ensures ValidMonth(Forward(p, n)) && Index(Forward(p, n)) == Index(p) + n
  {
    if n > 0 {
      ForwardIndex(p, n - 1);
      NavigationSteps(Forward(p, n - 1));
    }
  }

  /** Twelve steps forward is the same month a year later. */
  lemma TwelveMonths(p: MonthYear)
    requires ValidMonth(p)
    ensures Forward(p, 12) == MonthYear(p.month, p.year + 1)
  {
    ForwardIndex(p, 12);
    var q := Forward(p, 12);
    assert q.year * 12 + q.month == (p.year + 1) * 12 + p.month;
  }

  class MonthView {
    var selectedMonth: int
    var selectedYear: int

    function Shown(): MonthYear
      reads this
    {
      MonthYear(selectedMonth, selectedYear)
    }

    constructor(today: MonthYear)
      requires ValidMonth(today)
      ensures Shown() == today
    {
      selectedMonth, selectedYear := today.month, today.year;
    }

    method NextMonth()
      modifies this
      ensures Shown() == Next(old(Shown()))
    {
      if selectedMonth == 11 {
        selectedMonth := 0;
        selectedYear := selectedYear + 1;
      } else {
        selectedMonth := selectedMonth + 1;
      }
    }

    method PreviousMonth()
      modifies this
      ensures Shown() == Previous(old(Shown()))
    {
      if selectedMonth == 0 {
        selectedMonth := 11;
        selectedYear := selectedYear - 1;
      } else {
        selectedMonth := selectedMonth - 1;
      }
    }
  }

  // ---------------------------------------------------------------------
  // Day keys
  // ---------------------------------------------------------------------

  /** "YYYY-MM-DD" for a calendar day (month 0..11 written as 1..12). */
  function KeyOf(year: nat, month: nat, day: nat): string {
    NatToString(year) + "-" + Pad2(month + 1) + "-" + Pad2(day)
  }

  /** The key of `new Date(workout.date)`: every field of an invalid date prints as NaN. */
  function DayKey(date: Option<Stamp>): string {
    match date
    case Some(s) => KeyOf(s.year, s.month, s.day)
    case None => "NaN-NaN-NaN"
  }

  /** A key reads back as its year, month number and day. */
  lemma ReadKey(year: nat, month: nat, day: nat)
    ensures ReadNumbers(KeyOf(year, month, day), '-', None) == Some([year, month + 1, day])
  {
    var y, m, d := NatToString(year), Pad2(month + 1), Pad2(day);
    ParseNatToString(year);
    ParsePad2(month + 1);
    ParsePad2(day);
    var tail := m + ['-'] + d;
    assert KeyOf(year, month, day) == y + ['-'] + tail;
    DigitsLast(d, '-');
    DigitsThen(m, d, '-');
    DigitsThen(y, tail, '-');
    assert [year] + ([month + 1] + [day]) == [year, month + 1, day];
  }

  /** Two valid dates get the same key exactly when they fall on the same day. */
  lemma KeyMatches(a: Stamp, b: Stamp)
    ensures DayKey(Some(a)) == DayKey(Some(b)) <==> a.year == b.year && a.month == b.month && a.day == b.day
  {
    if DayKey(Some(a)) == DayKey(Some(b)) {
      ReadKey(a.year, a.month, a.day);
      ReadKey(b.year, b.month, b.day);
    }
  }

  /** A workout without a valid date matches no real day. */
  lemma InvalidDateMatchesNoDay(s: Stamp)
    ensures DayKey(None) != DayKey(Some(s))
  {
    var k := DayKey(Some(s));
    assert IsDigit(k[0]);
  }

  // ---------------------------------------------------------------------
  // The month grid
  // ---------------------------------------------------------------------

  /** `workouts.some(w => key(w.date) === key)`. */
  function AnyOnDay(ws: seq<Workout>, key: string): bool {
    ws != [] && (DayKey(ws[0].date) == key || AnyOnDay(ws[1..], key))
  }

  lemma {:induction false} AnyOnDayExists(ws: seq<Workout>, key: string)
    ensures AnyOnDay(ws, key) <==> exists i :: 0 <= i < |ws| && DayKey(ws[i].date) == key
  {
    if ws != [] {
      var rest := ws[1..];
      AnyOnDayExists(rest, key);
      if DayKey(ws[0].date) != key {
        if AnyOnDay(rest, key) {
          var i :| 0 <= i < |rest| && DayKey(rest[i].date) == key;
          assert ws[i + 1] == rest[i];
        }
        if exists i :: 0 <= i < |ws| && DayKey(ws[i].date) == key {
          var i :| 0 <= i < |ws| && DayKey(ws[i].date) == key;
          assert rest[i - 1] == ws[i];
        }
      }
    }
  }

  /** A grid cell: an empty lead-in cell, or a day number with its workout marker. */
  datatype Cell = Blank | Day(day: nat, hasWorkouts: bool)

  /** The cell of day `d` of the shown month: marked when some workout has that day's key. */
  function DayCell(ws: seq<Workout>, shown: MonthYear, d: nat): (c: Cell)
    requires ValidMonth(shown) && shown.year >= 0
    ensures c.Day? && c.day == d
  {
    Day(d, AnyOnDay(ws, KeyOf(shown.year, shown.month, d)))
  }

  /** A day is marked exactly when a workout falls on that year, month and day. */
  lemma DayCellMarked(ws: seq<Workout>, shown: MonthYear, d: nat)
    requires ValidMonth(shown) && shown.year >= 0
    ensures DayCell(ws, shown, d).hasWorkouts <==>
              exists i :: 0 <= i < |ws| && ws[i].date.Some? && ws[i].date.value.year == shown.year
                          && ws[i].date.value.month == shown.month && ws[i].date.value.day == d
  {
    var key := KeyOf(shown.year, shown.month, d);
    AnyOnDayExists(ws, key);
    var s := Stamp(0, shown.year, shown.month, d);
    assert DayKey(Some(s)) == key;
    forall i | 0 <= i < |ws|
      ensures DayKey(ws[i].date) == key <==> (ws[i].date.Some? && ws[i].date.value.year == shown.year
                                                && ws[i].date.value.month == shown.month && ws[i].date.value.day == d)
    {
      if ws[i].date.Some? {
        KeyMatches(ws[i].date.value, s);
      } else {
        InvalidDateMatchesNoDay(s);
      }
    }
  }

  /** The first loop of `generateCalendarDays`: the empty cells before the 1st. */
  method LeadingBlanks(n: nat) returns (blanks: seq<Cell>)
    ensures |blanks| == n && forall k :: 0 <= k < n ==> blanks[k] == Blank
  {
    blanks := [];
    var i := 0;
    while i < n
      invariant 0 <= i <= n && |blanks| == i
      invariant forall k :: 0 <= k < i ==> blanks[k] == Blank
    {
      blanks := blanks + [Blank];
      i := i + 1;
    }
  }

  /** The second loop of `generateCalendarDays`: one cell per day of the month, in order. */
  method MonthDays(ws: seq<Workout>, shown: MonthYear, daysInMonth: nat) returns (days: seq<Cell>)
    requires ValidMonth(shown) && shown.year >= 0
    ensures |days| == daysInMonth
    ensures forall k :: 0 <= k < |days| ==> days[k] == DayCell(ws, shown, k + 1)
  {
    days := [];
    var d := 1;
    while d <= daysInMonth
      invariant 1 <= d <= daysInMonth + 1 && |days| == d - 1
      invariant forall k :: 0 <= k < |days| ==> days[k] == DayCell(ws, shown, k + 1)
    {
      days := days + [DayCell(ws, shown, d)];
      d := d + 1;
    }
  }

  /**
   * `generateCalendarDays`: `firstDayOfMonth` empty cells (the weekday of the
   * 1st, 0 = Sunday) and then one cell per day, marked when a workout falls on
   * it. The weekday and the month length are given, as the `Date` object
   * computes them.
   */
  method GenerateCalendarDays(ws: seq<Workout>, shown: MonthYear, firstDayOfMonth: nat, daysInMonth: nat)
    returns (cells: seq<Cell>)
    requires ValidMonth(shown) && shown.year >= 0
    ensures |cells| == firstDayOfMonth + daysInMonth
    ensures forall k :: 0 <= k < firstDayOfMonth ==> cells[k] == Blank
    ensures forall k :: firstDayOfMonth <= k < |cells| ==> cells[k] == DayCell(ws, shown, k - firstDayOfMonth + 1)
  {
    var blanks := LeadingBlanks(firstDayOfMonth);
    var days := MonthDays(ws, shown, daysInMonth);
    cells := blanks + days;
    forall k | firstDayOfMonth <= k < |cells|
      ensures cells[k] == DayCell(ws, shown, k - firstDayOfMonth + 1)
    {
      assert cells[k] == days[k - firstDayOfMonth];
    }
  }

  // ---------------------------------------------------------------------
  // The selected day's rows
  // ---------------------------------------------------------------------

  /** One listed workout: its type, its minutes text, and its distance (shown as "<d> km"), or "--". */
  datatype Row = Row(kind: string, duration: string, distanceKm: Option<real>)

  /** The row for one workout: 'Activity' for no type, '--' for no duration or distance. */
  function RowOf(w: Workout): (r: Row)
    ensures w.kind.None? || w.kind == Some("") ==> r.kind == "Activity"
    ensures OrZero(w.duration) == 0.0 ==> r.duration == "--"
    ensures OrZero(w.duration) != 0.0 ==>
              r.duration == IntToString(Round(w.duration.value / 60000.0)) + " min"
    ensures OrZero(w.distance) == 0.0 <==> r.distanceKm.None?
  {
    Row(
      if w.kind.None? || w.kind == Some("") then "Activity" else w.kind.value,
      if OrZero(w.duration) == 0.0 then "--" else IntToString(Round(w.duration.value / 60000.0)) + " min",
      if OrZero(w.distance) == 0.0 then None else w.distance)
  }

  /** The workouts whose date has the given key, in list order. */
  function OnDay(ws: seq<Workout>, key: string): (r: seq<Workout>)
    ensures |r| <= |ws|
    ensures forall i :: 0 <= i < |r| ==> DayKey(r[i].date) == key
  {
    if ws == [] then []
    else if DayKey(ws[0].date) == key then [ws[0]] + OnDay(ws[1..], key)
    else OnDay(ws[1..], key)
  }

  lemma {:induction false} OnDayMembers(ws: seq<Workout>, key: string, w: Workout)
    ensures w in OnDay(ws, key) <==> w in ws && DayKey(w.date) == key
  {
    if ws != [] {
      OnDayMembers(ws[1..], key, w);
      assert w in ws <==> w == ws[0] || w in ws[1..];
    }
  }

  /**
   * `getWorkoutsForSelectedDate`: one row per workout dated on the selected
   * day, in list order.
   */
  function RowsForDay(ws: seq<Workout>, selected: Stamp): (rows: seq<Row>)
    ensures ws == [] ==> rows == []
    ensures |rows| == |OnDay(ws, DayKey(Some(selected)))|
    ensures forall i :: 0 <= i < |rows| ==> rows[i] == RowOf(OnDay(ws, DayKey(Some(selected)))[i])
  {
    var matching := OnDay(ws, DayKey(Some(selected)));
    seq(|matching|, i requires 0 <= i < |matching| => RowOf(matching[i]))
  }

  /** The rows come exactly from the workouts on the selected year, month and day. */
  lemma RowsAreThatDay(ws: seq<Workout>, selected: Stamp, w: Workout)
    ensures w in OnDay(ws, DayKey(Some(selected))) <==>
              w in ws && w.date.Some? && w.date.value.year == selected.year
              && w.date.value.month == selected.month && w.date.value.day == selected.day
  {
    OnDayMembers(ws, DayKey(Some(selected)), w);
    if w.date.Some? {
      KeyMatches(w.date.value, selected);
    } else {
      InvalidDateMatchesNoDay(selected);
    }
  }
}
