/**
 * The statistics screen: totals, averages and personal bests over all
 * workouts, and the achievement thresholds.
 */
module StatsScreen {
  import opened Wrappers
  import opened Workouts
  import opened Numbers
  import AppSettings

  /** The quantities the screen adds up. */
  datatype Measure = Distance | Steps | Calories | Duration

  /**
   * What one workout contributes: `parseFloat(distance || 0)`, and
   * `parseInt(x || 0)` (truncation) for steps, calories and duration.
   */
  function Value(w: Workout, m: Measure): real {
    match m
    case Distance => OrZero(w.distance)
    case Steps => Trunc(OrZero(w.steps)) as real
    case Calories => Trunc(OrZero(w.calories)) as real
    case Duration => Trunc(OrZero(w.duration)) as real
  }

  /** The values of one measure, workout by workout (`workouts.map(...)`). */
  function Values(ws: seq<Workout>, m: Measure): (xs: seq<real>)
    ensures |xs| == |ws|
    ensures forall i :: 0 <= i < |ws| ==> xs[i] == Value(ws[i], m)
  {
    seq(|ws|, i requires 0 <= i < |ws| => Value(ws[i], m))
  }

  datatype PersonalBest = PersonalBest(title: string, value: real)

  datatype Summary = Summary(
    totalWorkouts: nat,
    totalDistance: real,
    totalSteps: real,
    totalCalories: real,
    totalDuration: real,
    avgDistance: real,
    avgDuration: real,
    personalBests: seq<PersonalBest>)

  function Total(ws: seq<Workout>, m: Measure): real {
    Sum(Values(ws, m))
  }

  /** The largest value of a measure is some workout's own. */
  lemma BestOf(ws: seq<Workout>, m: Measure)
    requires ws != []
    ensures exists i :: 0 <= i < |ws| && Value(ws[i], m) == Max(Values(ws, m))
  {
    var xs := Values(ws, m);
    var i :| 0 <= i < |xs| && xs[i] == Max(xs);
    assert Value(ws[i], m) == Max(xs);
  }

  /**
   * `calculateStats`: all zeros and no bests for no workouts; otherwise the
   * sums, the averages per workout, and the four personal bests (each the
   * largest value of its measure; `PersonalBestsReached` shows each is some
   * workout's own), before the screen formats them.
   */
  function CalculateStats(ws: seq<Workout>): (st: Summary)
    ensures ws == [] ==> st == Summary(0, 0.0, 0.0, 0.0, 0.0, 0.0, 0.0, [])
    ensures st.totalWorkouts == |ws|
    ensures st.totalDistance == Total(ws, Distance) && st.totalSteps == Total(ws, Steps)
    ensures st.totalCalories == Total(ws, Calories) && st.totalDuration == Total(ws, Duration)
    ensures ws != [] ==> st.avgDistance == st.totalDistance / |ws| as real
    ensures ws != [] ==> st.avgDuration == st.totalDuration / |ws| as real
    ensures ws != [] ==> |st.personalBests| == 4
    ensures ws != [] ==> forall i :: 0 <= i < |ws| ==>
              Value(ws[i], Distance) <= st.personalBests[0].value && Value(ws[i], Duration) <= st.personalBests[1].value
              && Value(ws[i], Steps) <= st.personalBests[2].value && Value(ws[i], Calories) <= st.personalBests[3].value
  {
    if ws == [] then Summary(0, 0.0, 0.0, 0.0, 0.0, 0.0, 0.0, [])
    else
      var n := |ws| as real;
      var distance, duration := Total(ws, Distance), Total(ws, Duration);
      Summary(|ws|, distance, Total(ws, Steps), Total(ws, Calories), duration,
        distance / n, duration / n,
        [PersonalBest("Longest Distance", Max(Values(ws, Distance))),
         PersonalBest("Longest Duration", Max(Values(ws, Duration))),
         PersonalBest("Most Steps", Max(Values(ws, Steps))),
         PersonalBest("Most Calories", Max(Values(ws, Calories)))])
  }
  /** Each personal best is the value some workout actually reached. */
  lemma PersonalBestsReached(ws: seq<Workout>)
    requires ws != []
    ensures exists i :: 0 <= i < |ws| && Value(ws[i], Distance) == CalculateStats(ws).personalBests[0].value
    ensures exists i :: 0 <= i < |ws| && Value(ws[i], Duration) == CalculateStats(ws).personalBests[1].value
    ensures exists i :: 0 <= i < |ws| && Value(ws[i], Steps) == CalculateStats(ws).personalBests[2].value
    ensures exists i :: 0 <= i < |ws| && Value(ws[i], Calories) == CalculateStats(ws).personalBests[3].value
  {
    BestOf(ws, Distance);
    BestOf(ws, Duration);
    BestOf(ws, Steps);
    BestOf(ws, Calories);
  }


  /** Each average is at most the matching personal best. */
  lemma AverageAtMostBest(ws: seq<Workout>)
    requires ws != []
    ensures CalculateStats(ws).avgDistance <= CalculateStats(ws).personalBests[0].value
    ensures CalculateStats(ws).avgDuration <= CalculateStats(ws).personalBests[1].value
  {
    var ds, us := Values(ws, Distance), Values(ws, Duration);
    AverageBound(ds, Max(ds));
    AverageBound(us, Max(us));
  }

  datatype Achievement = Achievement(title: string, completed: bool)

  /** The distance target: 31 in miles, 50 in kilometres. */
  function DistanceGoal(useMiles: bool): real {
    if useMiles then 31.0 else 50.0
  }

  /**
   * The achievements as written: the workout count and the totals against the
   * thresholds, the distance target chosen by the unit setting but compared
   * with the total in kilometres.
   */
  function AchievementsAsWritten(count: nat, st: Summary, useMiles: bool): (a: seq<Achievement>)
    ensures |a| == 5
    ensures a[1].completed <==> st.totalDistance >= DistanceGoal(useMiles)
  {
    [Achievement("Early Bird", count >= 5),
     Achievement("Distance Master", st.totalDistance >= DistanceGoal(useMiles)),
     Achievement("Consistency King", st.totalWorkouts >= 10),
     Achievement("Step Counter", st.totalSteps >= 50000.0),
     Achievement("Calorie Burner", st.totalCalories >= 5000.0)]
  }

  /** With miles selected, 31 km (about 19.3 mi) already completes "Complete 31mi total". */
  lemma DistanceMasterTooEarly()
    ensures var ws := [Workout(None, Some("Running"), None, None, Some(31.0), None, None, [], None, false)];
            var st := CalculateStats(ws);
            AchievementsAsWritten(|ws|, st, true)[1].completed
            && AppSettings.Convert(true, Some(st.totalDistance)) < 31.0
  {
    var ws := [Workout(None, Some("Running"), None, None, Some(31.0), None, None, [], None, false)];
    var xs := Values(ws, Distance);
    assert xs == [31.0];
    assert xs[..0] == [];
  }

  /**
   * The achievements with the total shown in the selected unit, so that the
   * distance target is met exactly when the displayed total reaches it.
   */
  function Achievements(count: nat, st: Summary, useMiles: bool): (a: seq<Achievement>)
    ensures |a| == 5
    ensures a[0].completed <==> count >= 5
    ensures a[1].completed <==> AppSettings.Convert(useMiles, Some(st.totalDistance)) >= DistanceGoal(useMiles)
    ensures a[2].completed <==> st.totalWorkouts >= 10
    ensures a[3].completed <==> st.totalSteps >= 50000.0
    ensures a[4].completed <==> st.totalCalories >= 5000.0
  {
    [Achievement("Early Bird", count >= 5),
     Achievement("Distance Master", AppSettings.Convert(useMiles, Some(st.totalDistance)) >= DistanceGoal(useMiles)),
     Achievement("Consistency King", st.totalWorkouts >= 10),
     Achievement("Step Counter", st.totalSteps >= 50000.0),
     Achievement("Calorie Burner", st.totalCalories >= 5000.0)]
  }

  /** A workout whose values are not negative. */
  predicate NonNegative(w: Workout) {
    forall m :: Value(w, m) >= 0.0
  }

  lemma TotalAppend(ws: seq<Workout>, w: Workout, m: Measure)
    ensures Total(ws + [w], m) == Total(ws, m) + Value(w, m)
  {
    var xs := Values(ws + [w], m);
    assert xs[..|ws|] == Values(ws, m);
  }

  /** Adding a workout with non-negative values never lowers a total. */
  lemma TotalsGrow(ws: seq<Workout>, w: Workout)
    requires NonNegative(w)
    ensures CalculateStats(ws).totalDistance <= CalculateStats(ws + [w]).totalDistance
    ensures CalculateStats(ws).totalSteps <= CalculateStats(ws + [w]).totalSteps
    ensures CalculateStats(ws).totalCalories <= CalculateStats(ws + [w]).totalCalories
  {
    TotalAppend(ws, w, Distance);
    TotalAppend(ws, w, Steps);
    TotalAppend(ws, w, Calories);
    assert Value(w, Distance) >= 0.0 && Value(w, Steps) >= 0.0 && Value(w, Calories) >= 0.0;
  }

  /** Higher totals never take an achievement away. */
  lemma AchievementsMonotone(count: nat, st: Summary, count': nat, st': Summary, useMiles: bool)
    requires count <= count' && st.totalWorkouts <= st'.totalWorkouts
    requires st.totalDistance <= st'.totalDistance && st.totalSteps <= st'.totalSteps
    requires st.totalCalories <= st'.totalCalories
    ensures forall i :: 0 <= i < 5 && Achievements(count, st, useMiles)[i].completed ==> Achievements(count', st', useMiles)[i].completed
  {
    AppSettings.ConvertMonotone(useMiles, st.totalDistance, st'.totalDistance);
  }
}
