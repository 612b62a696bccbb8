/**
 * The home screen's display helpers: the duration and calorie texts of the
 * summary card, the icon entry of an activity type, and the "Today" /
 * "Yesterday" / "n days ago" label of a recent workout.
 */
module HomeScreen {
  import opened Wrappers
  import opened Text
  import opened Numbers
  import opened TimeFormat

  // ---------------------------------------------------------------------
  // Durations: `formatDuration` is written for minutes, but is handed ms
  // ---------------------------------------------------------------------

  /**
   * The duration text as the summary card and the recent-activity rows build
   * it: `formatDuration(weeklyStats.totalDuration)` and
   * `formatDuration(workout.duration || 0)`, both in milliseconds, given to a
   * function that reads its argument as minutes.
   */
  function DurationLabelAsWritten(durationMs: nat): (r: string)
    ensures ReadMinutes(r) == Some(durationMs)
  {
    FormatDuration(durationMs)
  }

  /** A 30-minute workout (1 800 000 ms) is shown as 30 000 hours, where 30 minutes were meant. */
  lemma HalfHourShownAsThirtyThousandHours()
    ensures DurationLabelAsWritten(1800000) == NatToString(30000) + "h"
    ensures ReadMinutes(DurationLabelAsWritten(1800000)) != ReadMinutes(DurationLabel(1800000))
  {
    assert 1800000 / 60 == 30000 && 1800000 % 60 == 0;
  }

  /** The duration text with the milliseconds turned into whole minutes first. */
  function DurationLabel(durationMs: nat): (r: string)
    ensures ReadMinutes(r) == Some(durationMs / 60000)
    ensures durationMs < 60000 ==> r == "0m"
  {
    FormatDuration(durationMs / 60000)
  }

  /** The corrected text never shows more time than the workout took, and is off by under a minute. */
  lemma DurationLabelWithinAMinute(durationMs: nat)
    ensures ReadMinutes(DurationLabel(durationMs)).Some?
    ensures ReadMinutes(DurationLabel(durationMs)).value * 60000 <= durationMs
    ensures durationMs < (ReadMinutes(DurationLabel(durationMs)).value + 1) * 60000
  {
    DivModUnique(durationMs, 60000, durationMs / 60000, durationMs % 60000);
  }

  // ---------------------------------------------------------------------
  // Calories
  // ---------------------------------------------------------------------

  /**
   * `formatCalories`: the number shown (before `toLocaleString` groups its
   * digits) — 0 for a missing or zero value, otherwise the rounded calories.
   */
  function ShownCalories(calories: Option<real>): (shown: int)
    ensures calories.None? || calories == Some(0.0) ==> shown == 0
    ensures calories.Some? ==> shown as real - 0.5 <= calories.value < shown as real + 0.5
  {
    if calories.None? || calories.value == 0.0 then 0 else Round(calories.value)
  }

  /** More calories never show as fewer. */
  lemma ShownCaloriesMonotone(a: real, b: real)
    requires 0.0 <= a <= b
    ensures ShownCalories(Some(a)) <= ShownCalories(Some(b))
  {
  }

  // ---------------------------------------------------------------------
  // Activity type icons
  // ---------------------------------------------------------------------

  datatype TypeInfo = TypeInfo(icon: string, color: string)

  const RunningInfo := TypeInfo("run-fast", "#FF7043")
  const WalkingInfo := TypeInfo("walk", "#4CAF50")
  const CyclingInfo := TypeInfo("bicycle", "#5C6BC0")

  /**
   * `getActivityTypeInfo`: the entry for the lowercased type; a missing or
   * empty type reads as 'running', and a type with no entry gets running's.
   */
  function ActivityTypeInfo(kind: Option<string>): (info: TypeInfo)
    ensures info == WalkingInfo <==> kind.Some? && ToLower(kind.value) == "walking"
    ensures info == CyclingInfo <==> kind.Some? && ToLower(kind.value) == "cycling"
    ensures info == RunningInfo <==> !(kind.Some? && ToLower(kind.value) in {"walking", "cycling"})
  {
    var lower := if kind.Some? && ToLower(kind.value) != "" then ToLower(kind.value) else "running";
    if lower == "walking" then WalkingInfo
    else if lower == "cycling" then CyclingInfo
    else RunningInfo
  }

  /** Types that differ only in letter case get the same entry. */
  lemma ActivityTypeInfoIgnoresCase(a: string, b: string)
    requires ToLower(a) == ToLower(b)
    ensures ActivityTypeInfo(Some(a)) == ActivityTypeInfo(Some(b))
  {
  }

  // ---------------------------------------------------------------------
  // Recent-workout date labels
  // ---------------------------------------------------------------------

  const DayMs: nat := 86400000

  /** The label kinds; `Dated` is the `toLocaleDateString` text, `DaysAgo(n)` is "n days ago". */
  datatype DateLabel = Today | Yesterday | DaysAgo(n: int) | Dated

  /** `Math.ceil(Math.abs(now - date) / 86400000)`. */
  function DiffDays(nowMs: int, dateMs: int): (d: nat)
    ensures (d - 1) * DayMs < Abs(nowMs - dateMs) <= d * DayMs
  {
    var diff := Abs(nowMs - dateMs);
    var d := (diff + DayMs - 1) / DayMs;
    DivModUnique(diff + DayMs - 1, DayMs, d, (diff + DayMs - 1) % DayMs);
    d
  }

  function Abs(x: int): nat {
    if x < 0 then -x else x
  }

  /**
   * `formatWorkoutDate` as written: diffDays 1 is "Today", 2 "Yesterday",
   * up to 7 "diffDays - 1 days ago", beyond that the date. An unparseable
   * date gives NaN, which fails every comparison and shows the date text.
   */
  function DateLabelAsWritten(nowMs: int, dateMs: Option<int>): (l: DateLabel)
    ensures dateMs.None? ==> l == Dated
  {
    if dateMs.None? then Dated
    else
      var d := DiffDays(nowMs, dateMs.value);
      if d == 1 then Today
      else if d == 2 then Yesterday
      else if d <= 7 then DaysAgo(d - 1)
      else Dated
  }

  /** A workout stamped at this very millisecond has diffDays 0 and is labelled "-1 days ago". */
  lemma SameInstantIsMinusOneDaysAgo(nowMs: int)
    ensures DateLabelAsWritten(nowMs, Some(nowMs)) == DaysAgo(-1)
  {
  }

  /** The labels with a zero difference counted as "Today", as the first bucket evidently means. */
  function DateLabelOf(nowMs: int, dateMs: Option<int>): (l: DateLabel)
    ensures dateMs.None? ==> l == Dated
    ensures dateMs.Some? ==>
              (l == Today <==> Abs(nowMs - dateMs.value) <= DayMs)
    ensures dateMs.Some? ==>
              (l == Yesterday <==> DayMs < Abs(nowMs - dateMs.value) <= 2 * DayMs)
    ensures l.DaysAgo? ==> dateMs.Some? && 2 <= l.n <= 6
                           && l.n * DayMs < Abs(nowMs - dateMs.value) <= (l.n + 1) * DayMs
    ensures dateMs.Some? ==>
              (l == Dated <==> 7 * DayMs < Abs(nowMs - dateMs.value))
  {
    if dateMs.None? then Dated
    else
      var d := DiffDays(nowMs, dateMs.value);
      if d <= 1 then Today
      else if d == 2 then Yesterday
      else if d <= 7 then DaysAgo(d - 1)
      else Dated
  }

  /** How long ago a label says: labels never go back in time as the difference grows. */
  function Age(l: DateLabel): int {
    match l
    case Today => 0
    case Yesterday => 1
    case DaysAgo(n) => n
    case Dated => 7
  }

  lemma DateLabelMonotone(nowMs: int, a: int, b: int)
    requires Abs(nowMs - a) <= Abs(nowMs - b)
    ensures Age(DateLabelOf(nowMs, Some(a))) <= Age(DateLabelOf(nowMs, Some(b)))
  {
  }

  /** The two definitions agree on every nonzero difference. */
  lemma DateLabelsAgreeAwayFromNow(nowMs: int, dateMs: int)
    requires nowMs != dateMs
    ensures DateLabelAsWritten(nowMs, Some(dateMs)) == DateLabelOf(nowMs, Some(dateMs))
  {
    assert DiffDays(nowMs, dateMs) >= 1;
  }
}
