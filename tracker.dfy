/**
 * The live workout tracker: calories from distance, the location-fix
 * accumulators and their periodic commit, the pause-aware timer, session
 * steps, the compass heading with its map-rotation throttle, and the
 * start / pause / resume / stop life cycle that saves a workout record.
 *
 * Sensor callbacks and interval ticks are explicit calls: the time `now`
 * (milliseconds), the distance between two fixes and the compass angle are
 * inputs.
 */
module LiveTracker {
  import opened Wrappers
  import opened Workouts
  import opened Numbers

  // ---------------------------------------------------------------------
  // Calories
  // ---------------------------------------------------------------------

  /** The metabolic equivalent used for each activity type. */
  function Met(activityType: string): (met: real)
    ensures activityType == "Running" ==> met == 8.0
    ensures activityType == "Walking" ==> met == 3.8
    ensures activityType == "Cycling" ==> met == 7.5
    ensures activityType !in {"Running", "Walking", "Cycling"} ==> met == 5.0
  {
    match activityType
    case "Running" => 8.0
    case "Walking" => 3.8
    case "Cycling" => 7.5
    case _ => 5.0
  }

  /** The user's weight, or 70 kg when it is not positive. */
  function EffectiveWeight(userWeight: real): (w: real)
    ensures w > 0.0
    ensures userWeight > 0.0 ==> w == userWeight
  {
    if userWeight > 0.0 then userWeight else 70.0
  }

  /** `calculateCalories`: kilometres times 100 kcal, scaled by MET / 8 and weight / 70. */
  function Calories(distanceKm: real, activityType: string, userWeight: real): (c: real)
    ensures distanceKm == 0.0 ==> c == 0.0
    ensures distanceKm >= 0.0 ==> c >= 0.0
    ensures activityType == "Running" && userWeight == 70.0 ==> c == 100.0 * distanceKm
  {
    distanceKm * ((Met(activityType) / 8.0) * 100.0 * (EffectiveWeight(userWeight) / 70.0))
  }

  /** Calories are linear in distance: two stretches burn what their sum burns. */
  lemma CaloriesAdditive(a: real, b: real, activityType: string, userWeight: real)
    ensures Calories(a + b, activityType, userWeight) == Calories(a, activityType, userWeight) + Calories(b, activityType, userWeight)
  {
  }

  /** Per kilometre at the 70 kg baseline: 100 kcal running, 47.5 walking, 93.75 cycling, 62.5 otherwise. */
  lemma CaloriesPerKm(activityType: string)
    ensures activityType == "Running" ==> Calories(1.0, activityType, 70.0) == 100.0
    ensures activityType == "Walking" ==> Calories(1.0, activityType, 70.0) == 47.5
    ensures activityType == "Cycling" ==> Calories(1.0, activityType, 70.0) == 93.75
    ensures activityType !in {"Running", "Walking", "Cycling"} ==> Calories(1.0, activityType, 70.0) == 62.5
  {
  }

  /**
   * The formula's scaling: the burn is the running burn scaled by MET / 8,
   * the 70 kg burn scaled by weight / 70, and the per-kilometre burn times the
   * distance.
   */
  lemma CaloriesScale(d: real, activityType: string, userWeight: real)
    ensures Calories(d, activityType, userWeight) * 8.0 == Calories(d, "Running", userWeight) * Met(activityType)
    ensures Calories(d, activityType, userWeight) * 70.0 == Calories(d, activityType, 70.0) * EffectiveWeight(userWeight)
    ensures Calories(d, activityType, userWeight) == d * Calories(1.0, activityType, userWeight)
  {
    var met, w := Met(activityType), EffectiveWeight(userWeight);
    var perKm := (met / 8.0) * 100.0 * (w / 70.0);
    assert perKm == met * w * (100.0 / 560.0);
    assert Calories(d, activityType, userWeight) == d * perKm;
    assert Calories(d, "Running", userWeight) == d * (w * (100.0 / 70.0));
    assert Calories(d, activityType, 70.0) == d * (met * (100.0 / 8.0));
    assert Calories(1.0, activityType, userWeight) == perKm;
  }

  /** A weight that is not positive counts as the 70 kg baseline; a heavier user burns more per km. */
  lemma CaloriesByWeight(d: real, activityType: string, w1: real, w2: real)
    requires d > 0.0
    ensures w1 <= 0.0 ==> Calories(d, activityType, w1) == Calories(d, activityType, 70.0)
    ensures 0.0 < w1 < w2 ==> Calories(d, activityType, w1) < Calories(d, activityType, w2)
  {
    var k := Met(activityType) / 8.0 * 100.0;
    assert k > 0.0;
    if 0.0 < w1 < w2 {
      var gap := k * (w2 / 70.0) - k * (w1 / 70.0);
      assert gap == k * ((w2 - w1) / 70.0);
      assert gap > 0.0;
      assert d * gap > 0.0;
      assert Calories(d, activityType, w2) - Calories(d, activityType, w1) == d * gap;
    }
  }

  // ---------------------------------------------------------------------
  // Heading
  // ---------------------------------------------------------------------

  /**
   * The heading for a compass angle in degrees as `atan2` gives it
   * (-180..180): the angle is moved into 0..360 and the heading is 360 minus
   * it, normalised into 0..360.
   */
  function HeadingOf(angle: real): (h: real)
    requires -180.0 <= angle <= 180.0
    ensures 0.0 <= h < 360.0
    ensures h + angle == 0.0 || h + angle == 360.0
  {
    var a := if angle < 0.0 then angle + 360.0 else angle;
    var h := 360.0 - a;
    var h := if h < 0.0 then h + 360.0 else h;
    if h >= 360.0 then h - 360.0 else h
  }

  function Abs(x: real): (r: real)
    ensures r >= 0.0 && (r == x || r == -x)
  {
    if x < 0.0 then -x else x
  }

  /** The circular difference of two headings: `|a - b|`, or 360 minus it when that is over 180. */
  function CircularDiff(a: real, b: real): (r: real)
    ensures 0.0 <= Abs(a - b) <= 360.0 ==> 0.0 <= r <= 180.0
    ensures 0.0 <= Abs(a - b) <= 360.0 ==> r <= Abs(a - b) && r <= 360.0 - Abs(a - b)
    ensures r == Abs(a - b) || r == 360.0 - Abs(a - b)
  {
    var d := Abs(a - b);
    if d > 180.0 then 360.0 - d else d
  }

  /** The difference does not depend on the order, and a heading is 0 away from itself. */
  lemma CircularDiffSymmetric(a: real, b: real)
    ensures CircularDiff(a, b) == CircularDiff(b, a)
    ensures CircularDiff(a, a) == 0.0
  {
    assert Abs(a - b) == Abs(b - a);
  }

  /** Headings 359 and 1 are 2 degrees apart, too close to move the map. */
  lemma AcrossNorth()
    ensures CircularDiff(359.0, 1.0) == 2.0
  {
  }

  // ---------------------------------------------------------------------
  // Steps and fixes
  // ---------------------------------------------------------------------

  /** The session's steps: the pedometer's count less the baseline (0 when missing), never negative. */
  function SessionSteps(reported: int, baseline: Option<int>): (s: int)
    ensures s >= 0
    ensures reported >= baseline.GetOr(0) ==> s + baseline.GetOr(0) == reported
    ensures reported <= baseline.GetOr(0) ==> s == 0
  {
    var d := reported - baseline.GetOr(0);
    if d > 0 then d else 0
  }

  /** A higher count never shows fewer steps. */
  lemma SessionStepsMonotone(r1: int, r2: int, baseline: Option<int>)
    requires r1 <= r2
    ensures SessionSteps(r1, baseline) <= SessionSteps(r2, baseline)
  {
  }

  /** A location fix: position and, when the device reports one, altitude. */
  datatype Fix = Fix(position: LatLng, altitude: Option<real>)

  /** JavaScript truthiness of an altitude: present and not 0. */
  predicate HasAltitude(f: Fix) {
    f.altitude.Some? && f.altitude.value != 0.0
  }

  /** The climb a fix adds: only a rise, and only when both it and the previous fix have an altitude. */
  function ClimbFrom(previous: Option<Fix>, f: Fix): (c: real)
    ensures c >= 0.0
    ensures c > 0.0 <==> previous.Some? && HasAltitude(previous.value) && HasAltitude(f)
                         && f.altitude.value > previous.value.altitude.value
    ensures c > 0.0 ==> c == f.altitude.value - previous.value.altitude.value
  {
    if previous.Some? && HasAltitude(f) && HasAltitude(previous.value) then
      var change := f.altitude.value - previous.value.altitude.value;
      if change > 0.0 then change else 0.0
    else 0.0
  }

  /** The map follows a fix only when it moved more than 0.0005 degrees either way from the shown location. */
  function Followed(location: Option<LatLng>, p: LatLng): (r: Option<LatLng>)
    ensures r == location || r == Some(p)
    ensures location.None? ==> r == Some(p)
  {
    if location.None?
       || Abs(p.latitude - location.value.latitude) > 0.0005
       || Abs(p.longitude - location.value.longitude) > 0.0005
    then Some(p)
    else location
  }

  // ---------------------------------------------------------------------
  // Timer
  // ---------------------------------------------------------------------

  /**
   * The running interval: none, the one `startTimer` installs (elapsed is
   * now - start - paused), or the one `resumeTimer` installs (now - start).
   */
  datatype Interval = Stopped | FromStart | FromResume

  /** The three timer refs: start time, paused time and the interval. */
  datatype Timer = Timer(start: int, paused: int, interval: Interval)

  /** The elapsed time the running interval shows at `now`. */
  function Elapsed(t: Timer, now: int): (e: int)
    ensures t.interval == FromResume ==> e == now - t.start
    ensures t.interval != FromResume ==> e == now - t.start - t.paused
  {
    if t.interval == FromResume then now - t.start else now - t.start - t.paused
  }

  /** The elapsed time advances exactly with the clock. */
  lemma ElapsedAdvances(t: Timer, now: int, later: int)
    ensures Elapsed(t, later) == Elapsed(t, now) + (later - now)
  {
  }

  /** `startTimer`: the start is now; the paused time is kept. */
  function TimerStarted(t: Timer, now: int): (r: Timer)
    ensures r.interval == FromStart && Elapsed(r, now) == -t.paused
  {
    Timer(now, t.paused, FromStart)
  }

  /** `pauseTimer` as written: it stores now - start - paused whichever interval runs. */
  function TimerPausedAsWritten(t: Timer, now: int): (r: Timer)
    ensures t.interval == Stopped ==> r == t
    ensures t.interval != Stopped ==> r.interval == Stopped && r.start == t.start && r.paused == now - t.start - t.paused
  {
    if t.interval == Stopped then t else Timer(t.start, now - t.start - t.paused, Stopped)
  }

  /** `pauseTimer` storing the elapsed time the running interval shows. */
  function TimerPaused(t: Timer, now: int): (r: Timer)
    ensures t.interval == Stopped ==> r == t
    ensures t.interval != Stopped ==> r.interval == Stopped && r.paused == Elapsed(t, now)
  {
    if t.interval == Stopped then t else Timer(t.start, Elapsed(t, now), Stopped)
  }

  /** `resumeTimer`: the start moves so that the elapsed time resumes from the paused time. */
  function TimerResumed(t: Timer, now: int): (r: Timer)
    ensures r.interval == FromResume && Elapsed(r, now) == t.paused
  {
    Timer(now - t.paused, t.paused, FromResume)
  }

  /** A pause from `pauseAt` to `resumeAt`. */
  datatype Break = Break(pauseAt: int, resumeAt: int)

  /** The timer after a series of pause/resume cycles. */
  function AfterBreaks(t: Timer, breaks: seq<Break>): Timer
    decreases breaks
  {
    if breaks == [] then t
    else AfterBreaks(TimerResumed(TimerPaused(t, breaks[0].pauseAt), breaks[0].resumeAt), breaks[1..])
  }

  function BreakTime(breaks: seq<Break>): int {
    if breaks == [] then 0 else (breaks[0].resumeAt - breaks[0].pauseAt) + BreakTime(breaks[1..])
  }

  /**
   * With the pause storing the shown elapsed time, the timer stays continuous
   * across any number of cycles: it shows the running time less the breaks.
   */
  lemma {:induction false} BreaksContinuous(t: Timer, breaks: seq<Break>, now: int)
    requires t.interval != Stopped
    ensures AfterBreaks(t, breaks).interval != Stopped
    ensures Elapsed(AfterBreaks(t, breaks), now) == Elapsed(t, now) - BreakTime(breaks)
    decreases breaks
  {
    if breaks != [] {
      var b := breaks[0];
      var t1 := TimerResumed(TimerPaused(t, b.pauseAt), b.resumeAt);
      assert Elapsed(t1, now) == Elapsed(t, now) - (b.resumeAt - b.pauseAt) by {
        ElapsedAdvances(t1, b.resumeAt, now);
        ElapsedAdvances(t, b.pauseAt, now);
      }
      BreaksContinuous(t1, breaks[1..], now);
    }
  }

  /** As written, one pause/resume cycle after `startTimer` with no paused time is continuous. */
  lemma FirstBreakContinuousAsWritten(start: int, pauseAt: int, resumeAt: int, now: int)
    ensures Elapsed(TimerResumed(TimerPausedAsWritten(Timer(start, 0, FromStart), pauseAt), resumeAt), now)
         == (now - start) - (resumeAt - pauseAt)
  {
  }

  /**
   * As written, the second pause subtracts the first stretch again: started
   * at 0, paused at 10, resumed at 20 and paused at 30, the timer shows 20;
   * resumed at 40 it shows 10.
   */
  lemma SecondBreakLosesTimeAsWritten()
    ensures var t := TimerResumed(TimerPausedAsWritten(Timer(0, 0, FromStart), 10), 20);
            Elapsed(t, 30) == 20
            && Elapsed(TimerResumed(TimerPausedAsWritten(t, 30), 40), 40) == 10
    ensures Elapsed(AfterBreaks(Timer(0, 0, FromStart), [Break(10, 20), Break(30, 40)]), 40) == 20
  {
    BreaksContinuous(Timer(0, 0, FromStart), [Break(10, 20), Break(30, 40)], 40);
  }

  // ---------------------------------------------------------------------
  // Tracker state and its transitions
  // ---------------------------------------------------------------------

  /** The figures on screen (state): distance in km, duration in ms, speed, calories, steps, climb in m. */
  datatype Figures = Figures(
    distance: real,
    duration: int,
    speed: real,
    calories: real,
    steps: int,
    elevationGain: real)

  const Zeroed: Figures := Figures(0.0, 0, 0.0, 0.0, 0, 0.0)

  /** The two accumulator refs the location callback adds to between commits. */
  datatype Pending = Pending(distance: real, elevation: real)

  /** The shown heading and the two map-rotation refs. */
  datatype Compass = Compass(heading: real, lastMapHeading: real, lastMapUpdate: int)

  /** What `stopWorkout` hands to `addWorkout`. */
  datatype Record = Record(
    kind: string,
    duration: int,
    distance: real,
    calories: int,
    steps: int,
    route: seq<LatLng>,
    elevationGain: real)

  datatype TrackerState = TrackerState(
    activityType: string,
    userWeight: real,
    isTracking: bool,
    isPaused: bool,
    location: Option<LatLng>,
    route: seq<LatLng>,
    lastFix: Option<Fix>,
    figures: Figures,
    pending: Pending,
    stepBaseline: Option<int>,
    timer: Timer,
    statsUpdating: bool,
    compass: Compass)

  /**
   * What every transition keeps: no pause without tracking, buffers and
   * totals never negative, headings within 0..360.
   */
  predicate ValidState(s: TrackerState) {
    (s.isPaused ==> s.isTracking)
    && s.pending.distance >= 0.0 && s.pending.elevation >= 0.0
    && s.figures.distance >= 0.0 && s.figures.elevationGain >= 0.0 && s.figures.calories >= 0.0
    && s.figures.steps >= 0
    && 0.0 <= s.compass.heading < 360.0 && 0.0 <= s.compass.lastMapHeading < 360.0
  }

  /** The state on first render. */
  function Initial(activityType: string): (s: TrackerState)
    ensures ValidState(s) && !s.isTracking && s.userWeight == 70.0
  {
    TrackerState(activityType, 70.0, false, false, None, [], None, Zeroed, Pending(0.0, 0.0),
                 None, Timer(0, 0, Stopped), false, Compass(0.0, 0.0, 0))
  }

  /**
   * The location callback: the fix joins the route and becomes the last fix;
   * the step from the previous fix (`delta` km) and any climb go to the
   * pending buffers.
   */
  function Fixed(s: TrackerState, f: Fix, delta: real): (r: TrackerState)
    ensures r.route == s.route + [f.position] && r.lastFix == Some(f)
    ensures r.pending.distance == s.pending.distance + (if s.lastFix.Some? then delta else 0.0)
    ensures r.pending.elevation == s.pending.elevation + ClimbFrom(s.lastFix, f)
    ensures r.figures == s.figures
    ensures ValidState(s) && delta >= 0.0 ==> ValidState(r)
  {
    s.(route := s.route + [f.position],
       pending := Pending(
         if s.lastFix.Some? then s.pending.distance + delta else s.pending.distance,
         s.pending.elevation + ClimbFrom(s.lastFix, f)),
       lastFix := Some(f),
       location := Followed(s.location, f.position))
  }

  /**
   * The stats updater's tick: a positive pending distance moves into the
   * total and the calories follow the new total; a positive pending climb
   * moves into the elevation gain.
   */
  function Committed(s: TrackerState): (r: TrackerState)
    ensures s.pending.distance > 0.0 ==>
              r.pending.distance == 0.0 && r.figures.distance == s.figures.distance + s.pending.distance
              && r.figures.calories == Calories(r.figures.distance, s.activityType, s.userWeight)
    ensures s.pending.distance <= 0.0 ==>
              r.pending.distance == s.pending.distance && r.figures.distance == s.figures.distance
              && r.figures.calories == s.figures.calories
    ensures s.pending.elevation > 0.0 ==>
              r.pending.elevation == 0.0 && r.figures.elevationGain == s.figures.elevationGain + s.pending.elevation
    ensures s.pending.elevation <= 0.0 ==>
              r.pending.elevation == s.pending.elevation && r.figures.elevationGain == s.figures.elevationGain
    ensures r.figures.duration == s.figures.duration && r.figures.steps == s.figures.steps
    ensures r == s.(figures := r.figures, pending := r.pending)
    ensures ValidState(s) ==> ValidState(r)
  {
    var f, p := s.figures, s.pending;
    var (f, p) := if p.distance > 0.0 then
                    var total := f.distance + p.distance;
                    (f.(distance := total, calories := Calories(total, s.activityType, s.userWeight)), p.(distance := 0.0))
                  else (f, p);
    var (f, p) := if p.elevation > 0.0 then
                    (f.(elevationGain := f.elevationGain + p.elevation), p.(elevation := 0.0))
                  else (f, p);
    s.(figures := f, pending := p)
  }

  /** A commit keeps pending + total, and a second commit right after changes nothing. */
  lemma CommitKeepsSums(s: TrackerState)
    requires ValidState(s)
    ensures Committed(s).figures.distance + Committed(s).pending.distance == s.figures.distance + s.pending.distance
    ensures Committed(s).figures.elevationGain + Committed(s).pending.elevation
         == s.figures.elevationGain + s.pending.elevation
    ensures Committed(s).pending == Pending(0.0, 0.0)
    ensures Committed(Committed(s)) == Committed(s)
    ensures s.pending == Pending(0.0, 0.0) ==> Committed(s) == s
  {
  }

  /** A fix, then a commit: the distance grows by exactly the step, and the calories follow it. */
  lemma FixThenCommit(s: TrackerState, f: Fix, delta: real)
    requires ValidState(s) && s.lastFix.Some? && delta > 0.0
    ensures Committed(Fixed(s, f, delta)).figures.distance == s.figures.distance + s.pending.distance + delta
    ensures Committed(Fixed(s, f, delta)).figures.calories
         == Calories(s.figures.distance + s.pending.distance + delta, s.activityType, s.userWeight)
  {
  }

  /** The first fix of a workout adds no distance, whatever the step passed with it. */
  lemma FirstFixAddsNoDistance(s: TrackerState, f: Fix, delta: real)
    requires s.lastFix.None?
    ensures Fixed(s, f, delta).pending == s.pending
  {
  }

  /** The reset block of `startWorkout`: figures but the climb, route, buffers, step baseline and map refs. */
  function Cleared(s: TrackerState): TrackerState {
    s.(figures := Figures(0.0, 0, 0.0, 0.0, 0, s.figures.elevationGain), route := [],
       pending := Pending(0.0, 0.0), stepBaseline := None,
       compass := s.compass.(lastMapHeading := 0.0, lastMapUpdate := 0))
  }

  /** Tracking and not paused, the session cleared, and the timer and the stats updater started. */
  function SessionStarted(s: TrackerState, now: int): TrackerState {
    var c := Cleared(s);
    c.(isTracking := true, isPaused := false, timer := TimerStarted(c.timer.(paused := 0), now), statsUpdating := true)
  }

  /**
   * The reset leaves the session tracking and not paused, every figure but
   * the climb, both buffers and the step baseline cleared, the map-rotation
   * refs zeroed, and the timer (with no paused time) and the updater running.
   */
  lemma SessionStartedResets(s: TrackerState, now: int)
    ensures var r := SessionStarted(s, now);
            r.isTracking && !r.isPaused
            && r.figures == Zeroed.(elevationGain := s.figures.elevationGain)
            && r.route == [] && r.pending == Pending(0.0, 0.0) && r.stepBaseline.None?
            && r.timer == Timer(now, 0, FromStart) && r.statsUpdating
            && r.compass == s.compass.(lastMapHeading := 0.0, lastMapUpdate := 0)
            && r.lastFix == s.lastFix && r.location == s.location
            && (ValidState(s) ==> ValidState(r))
  {
  }

  /**
   * `startWorkout`. Without a shown location one is fetched (`fetched`);
   * when none can be had, both flags are cleared and nothing else changes.
   * Otherwise the session starts; when location tracking then fails
   * (`watching` false), both flags are cleared again while the reset stays.
   * The elevation gain and the last fix are not reset here.
   */
  function Started(s: TrackerState, now: int, fetched: Option<LatLng>, watching: bool): (r: TrackerState)
    ensures !r.isPaused && (r.isTracking <==> (s.location.Some? || fetched.Some?) && watching)
    ensures s.location.None? && fetched.None? ==> r == s.(isTracking := false, isPaused := false)
    ensures s.location.Some? || fetched.Some? ==>
              r.figures == Zeroed.(elevationGain := s.figures.elevationGain) && r.route == []
              && r.pending == Pending(0.0, 0.0) && r.timer == Timer(now, 0, FromStart)
              && r.location == (if s.location.Some? then s.location else fetched)
    ensures r.figures.elevationGain == s.figures.elevationGain && r.lastFix == s.lastFix
    ensures ValidState(s) ==> ValidState(r)
  {
    if s.location.None? && fetched.None? then
      s.(isTracking := false, isPaused := false)
    else
      var shown := s.(location := if s.location.Some? then s.location else fetched);
      var started := SessionStarted(shown, now);
      SessionStartedResets(shown, now);
      if watching then started else started.(isTracking := false, isPaused := false)
  }

  /** `pauseWorkout`: paused, the timer and the updater stopped. */
  function PausedAt(s: TrackerState, now: int): (r: TrackerState)
    ensures r.isPaused && r.isTracking == s.isTracking
    ensures r.timer == TimerPaused(s.timer, now) && !r.statsUpdating
    ensures ValidState(s) && s.isTracking ==> ValidState(r)
  {
    s.(isPaused := true, timer := TimerPaused(s.timer, now), statsUpdating := false)
  }

  /** `resumeWorkout`: running again, the timer continuing from the paused time. */
  function ResumedAt(s: TrackerState, now: int): (r: TrackerState)
    ensures !r.isPaused && r.statsUpdating
    ensures r.timer == TimerResumed(s.timer, now) && Elapsed(r.timer, now) == s.timer.paused
    ensures ValidState(s) ==> ValidState(r)
  {
    s.(isPaused := false, timer := TimerResumed(s.timer, now), statsUpdating := true)
  }

  /** The timer interval's tick: the shown duration is the elapsed time. */
  function Ticked(s: TrackerState, now: int): (r: TrackerState)
    ensures s.timer.interval != Stopped ==> r.figures.duration == Elapsed(s.timer, now)
    ensures s.timer.interval == Stopped ==> r == s
    ensures ValidState(s) ==> ValidState(r)
  {
    if s.timer.interval == Stopped then s else s.(figures := s.figures.(duration := Elapsed(s.timer, now)))
  }

  /** Pause, wait, resume and tick: the duration picks up where the pause left it. */
  lemma PauseResumeTick(s: TrackerState, pauseAt: int, resumeAt: int)
    requires s.timer.interval != Stopped
    ensures Ticked(ResumedAt(PausedAt(s, pauseAt), resumeAt), resumeAt).figures.duration
         == Ticked(s, pauseAt).figures.duration
  {
  }

  /** The pedometer: the first reading is the baseline, later ones give the session's steps. */
  function StepBaselineSet(s: TrackerState, initial: int): (r: TrackerState)
    ensures r.stepBaseline == Some(initial) && r.figures == s.figures
    ensures ValidState(s) ==> ValidState(r)
  {
    s.(stepBaseline := Some(initial))
  }

  function StepsCounted(s: TrackerState, reported: int): (r: TrackerState)
    ensures r.figures.steps == SessionSteps(reported, s.stepBaseline) && r.stepBaseline == s.stepBaseline
    ensures ValidState(s) ==> ValidState(r)
  {
    s.(figures := s.figures.(steps := SessionSteps(reported, s.stepBaseline)))
  }

  /**
   * `animateToHeading`: with a map and a location, at least 300 ms after the
   * last rotation and more than 5 degrees from the last map heading, the map
   * turns and the heading and time are recorded.
   */
  function Rotated(s: TrackerState, h: real, now: int, hasMap: bool): (r: TrackerState)
    ensures r == s || r == s.(compass := s.compass.(lastMapHeading := h, lastMapUpdate := now))
    ensures r != s ==> hasMap && s.location.Some? && now - s.compass.lastMapUpdate >= 300
                       && CircularDiff(h, s.compass.lastMapHeading) > 5.0
    ensures hasMap && s.location.Some? && now - s.compass.lastMapUpdate >= 300
            && CircularDiff(h, s.compass.lastMapHeading) > 5.0
            ==> r.compass.lastMapHeading == h && r.compass.lastMapUpdate == now
    ensures ValidState(s) && 0.0 <= h < 360.0 ==> ValidState(r)
  {
    if !hasMap || s.location.None? then s
    else if now - s.compass.lastMapUpdate < 300 then s
    else if CircularDiff(h, s.compass.lastMapHeading) > 5.0 then
      s.(compass := s.compass.(lastMapHeading := h, lastMapUpdate := now))
    else s
  }

  /** Right after a rotation, the map does not turn again within 300 ms. */
  lemma RotationThrottled(s: TrackerState, h: real, now: int, h2: real, later: int, hasMap: bool)
    requires Rotated(s, h, now, hasMap) != s
    requires later - now < 300
    ensures Rotated(Rotated(s, h, now, hasMap), h2, later, hasMap) == Rotated(s, h, now, hasMap)
  {
  }

  /**
   * The magnetometer listener: the heading for the compass angle replaces the
   * shown heading only when more than 5 degrees away from it, and then, when
   * not paused, the map is asked to follow.
   */
  function CompassRead(s: TrackerState, angle: real, now: int, hasMap: bool): (r: TrackerState)
    requires -180.0 <= angle <= 180.0
    ensures CircularDiff(HeadingOf(angle), s.compass.heading) > 5.0 ==> r.compass.heading == HeadingOf(angle)
    ensures CircularDiff(HeadingOf(angle), s.compass.heading) <= 5.0 ==> r == s
    ensures s.isPaused ==> r.compass.lastMapHeading == s.compass.lastMapHeading
                           && r.compass.lastMapUpdate == s.compass.lastMapUpdate
    ensures ValidState(s) ==> ValidState(r)
  {
    var h := HeadingOf(angle);
    if CircularDiff(h, s.compass.heading) > 5.0 then
      var turned := s.(compass := s.compass.(heading := h));
      if !s.isPaused then Rotated(turned, h, now, hasMap) else turned
    else s
  }

  /** `resetWorkout`: every figure and both buffers back to zero, the route empty. */
  function Reset(s: TrackerState): (r: TrackerState)
    ensures r.route == [] && r.figures == Zeroed && r.pending == Pending(0.0, 0.0) && r.timer.paused == 0
    ensures ValidState(s) ==> ValidState(r)
  {
    s.(route := [], figures := Zeroed, timer := s.timer.(paused := 0), pending := Pending(0.0, 0.0))
  }

  /**
   * The saved record as `stopWorkout` builds it: from the figures as they
   * were before the final flush, calories rounded.
   */
  function StopRecordAsWritten(s: TrackerState): (rec: Record)
    ensures rec.kind == s.activityType && rec.route == s.route
    ensures rec.duration == s.figures.duration && rec.steps == s.figures.steps
    ensures rec.distance == s.figures.distance && rec.elevationGain == s.figures.elevationGain
    ensures rec.calories as real - 0.5 <= s.figures.calories < rec.calories as real + 0.5
  {
    var f := s.figures;
    Record(s.activityType, f.duration, f.distance, Round(f.calories), f.steps, s.route, f.elevationGain)
  }

  /**
   * The record built after the final flush, which is what the flush before
   * saving is for: it counts every kilometre and metre of climb, pending ones
   * included, and the calories of the whole distance.
   */
  function StopRecord(s: TrackerState): (rec: Record)
    ensures rec.kind == s.activityType && rec.route == s.route
    ensures rec.duration == s.figures.duration && rec.steps == s.figures.steps
    ensures ValidState(s) ==> rec.distance == s.figures.distance + s.pending.distance
    ensures ValidState(s) ==> rec.elevationGain == s.figures.elevationGain + s.pending.elevation
    ensures s.pending.distance > 0.0 ==>
              rec.calories == Round(Calories(s.figures.distance + s.pending.distance, s.activityType, s.userWeight))
  {
    StopRecordAsWritten(Committed(s))
  }

  /** As written, the last stretch walked before stopping is missing from the saved record. */
  lemma FinalStretchLostAsWritten(s: TrackerState)
    requires ValidState(s) && s.pending.distance > 0.0
    ensures StopRecordAsWritten(s).distance < StopRecord(s).distance
  {
    CommitKeepsSums(s);
  }

  /** The record is saved only with an activity type; an empty type fails validation. */
  function Saved(s: TrackerState): (rec: Option<Record>)
    ensures rec.Some? <==> s.activityType != ""
    ensures rec.Some? ==> rec.value == StopRecord(s)
  {
    if s.activityType == "" then None else Some(StopRecord(s))
  }

  /**
   * `stopWorkout`'s effect on the tracker: both flags cleared, the timer and
   * updater stopped, then everything reset.
   */
  function StoppedAt(s: TrackerState, now: int): (r: TrackerState)
    ensures !r.isTracking && !r.isPaused && !r.statsUpdating && r.timer.interval == Stopped
    ensures r.figures == Zeroed && r.pending == Pending(0.0, 0.0) && r.route == []
    ensures ValidState(s) ==> ValidState(r)
  {
    Reset(s.(isTracking := false, isPaused := false, timer := TimerPaused(s.timer, now), statsUpdating := false))
  }

  /**
   * The shown average speed in km/h: distance over hours when both are
   * positive, otherwise 0.
   */
  function AverageSpeed(distanceKm: real, durationMs: int): (v: real)
    ensures distanceKm > 0.0 && durationMs > 0 ==> v > 0.0 && v * (durationMs as real) == distanceKm * 3600000.0
    ensures !(distanceKm > 0.0 && durationMs > 0) ==> v == 0.0
  {
    if distanceKm > 0.0 && durationMs > 0 then distanceKm / (durationMs as real / 3600000.0) else 0.0
  }

  // ---------------------------------------------------------------------
  // The tracker component
  // ---------------------------------------------------------------------

  /**
   * The component's state and refs. The six figures on screen, the two
   * accumulators and the three heading values are grouped as above.
   */
  class Tracker {
    var activityType: string
    var userWeight: real
    var isTracking: bool
    var isPaused: bool
    var location: Option<LatLng>
    var route: seq<LatLng>
    var lastFix: Option<Fix>
    var figures: Figures
    var pending: Pending
    var stepBaseline: Option<int>
    var timer: Timer
    var statsUpdating: bool
    var compass: Compass

    function State(): TrackerState
      reads this
    {
      TrackerState(activityType, userWeight, isTracking, isPaused, location, route, lastFix, figures,
                   pending, stepBaseline, timer, statsUpdating, compass)
    }

    predicate Valid()
      reads this
    {
      ValidState(State())
    }

    constructor(kind: string)
      ensures State() == Initial(kind) && Valid()
    {
      activityType, userWeight := kind, 70.0;
      isTracking, isPaused := false, false;
      location, route, lastFix := None, [], None;
      figures, pending, stepBaseline := Zeroed, Pending(0.0, 0.0), None;
      timer, statsUpdating := Timer(0, 0, Stopped), false;
      compass := Compass(0.0, 0.0, 0);
    }

    /** `loadUserWeight`: a saved positive weight replaces the default. */
    method LoadUserWeight(saved: Option<real>)
      requires Valid()
      modifies this
      ensures saved.Some? && saved.value > 0.0 ==> State() == old(State()).(userWeight := saved.value)
      ensures !(saved.Some? && saved.value > 0.0) ==> State() == old(State())
      ensures Valid()
    {
      if saved.Some? && saved.value > 0.0 {
        userWeight := saved.value;
      }
    }

    method OnLocation(f: Fix, delta: real)
      requires Valid() && delta >= 0.0
      modifies this
      ensures State() == Fixed(old(State()), f, delta) && Valid()
    {
      route := route + [f.position];
      if lastFix.Some? {
        pending := pending.(distance := pending.distance + delta);
      }
      pending := pending.(elevation := pending.elevation + ClimbFrom(lastFix, f));
      lastFix := Some(f);
      location := Followed(location, f.position);
    }

    method CommitStats()
      requires Valid()
      modifies this
      ensures State() == Committed(old(State())) && Valid()
    {
      if pending.distance > 0.0 {
        var total := figures.distance + pending.distance;
        figures := figures.(distance := total, calories := Calories(total, activityType, userWeight));
        pending := pending.(distance := 0.0);
      }
      if pending.elevation > 0.0 {
        figures := figures.(elevationGain := figures.elevationGain + pending.elevation);
        pending := pending.(elevation := 0.0);
      }
    }

    /** The start button, shown only while not tracking. */
    method StartWorkout(now: int, fetched: Option<LatLng>, watching: bool)
      requires Valid() && !isTracking
      modifies this
      ensures State() == Started(old(State()), now, fetched, watching) && Valid()
    {
      if location.None? && fetched.None? {
        isTracking, isPaused := false, false;
        return;
      }
      if location.None? {
        location := fetched;
      }
      StartSession(now);
      if !watching {
        isTracking, isPaused := false, false;
      }
    }

    /** The reset block of `startWorkout`, with the timer and the stats updater started. */
    method StartSession(now: int)
      modifies this
      ensures State() == SessionStarted(old(State()), now)
    {
      ClearSession();
      isTracking, isPaused := true, false;
      timer := TimerStarted(timer.(paused := 0), now);
      statsUpdating := true;
    }

    method ClearSession()
      modifies this
      ensures State() == Cleared(old(State()))
    {
      figures, route := Figures(0.0, 0, 0.0, 0.0, 0, figures.elevationGain), [];
      pending, stepBaseline := Pending(0.0, 0.0), None;
      compass := compass.(lastMapHeading := 0.0, lastMapUpdate := 0);
    }

    /** The pause button, shown while tracking and not paused. */
    method PauseWorkout(now: int)
      requires Valid() && isTracking && !isPaused
      modifies this
      ensures State() == PausedAt(old(State()), now) && Valid()
    {
      isPaused := true;
      timer := TimerPaused(timer, now);
      statsUpdating := false;
    }

    /** The resume button, shown while tracking and paused. */
    method ResumeWorkout(now: int)
      requires Valid() && isTracking && isPaused
      modifies this
      ensures State() == ResumedAt(old(State()), now) && Valid()
    {
      isPaused := false;
      timer := TimerResumed(timer, now);
      statsUpdating := true;
    }

    method Tick(now: int)
      requires Valid()
      modifies this
      ensures State() == Ticked(old(State()), now) && Valid()
    {
      if timer.interval != Stopped {
        figures := figures.(duration := Elapsed(timer, now));
      }
    }

    method OnStepBaseline(initial: int)
      requires Valid()
      modifies this
      ensures State() == StepBaselineSet(old(State()), initial) && Valid()
    {
      stepBaseline := Some(initial);
    }

    method OnStepCount(reported: int)
      requires Valid()
      modifies this
      ensures State() == StepsCounted(old(State()), reported) && Valid()
    {
      figures := figures.(steps := SessionSteps(reported, stepBaseline));
    }

    method OnCompass(angle: real, now: int, hasMap: bool)
      requires Valid() && -180.0 <= angle <= 180.0
      modifies this
      ensures State() == CompassRead(old(State()), angle, now, hasMap) && Valid()
    {
      var h := HeadingOf(angle);
      if CircularDiff(h, compass.heading) > 5.0 {
        compass := compass.(heading := h);
        if !isPaused && hasMap && location.Some? && now - compass.lastMapUpdate >= 300
           && CircularDiff(h, compass.lastMapHeading) > 5.0 {
          compass := compass.(lastMapHeading := h, lastMapUpdate := now);
        }
      }
    }

    /**
     * The stop button: the record to save (none when the type is empty) and
     * the tracker stopped and reset.
     */
    method StopWorkout(now: int) returns (saved: Option<Record>)
      requires Valid() && isTracking
      modifies this
      ensures saved == Saved(old(State()))
      ensures State() == StoppedAt(old(State()), now) && Valid()
    {
      saved := Saved(State());
      isTracking, isPaused := false, false;
      timer := TimerPaused(timer, now);
      statsUpdating := false;
      ResetWorkout();
    }

    /** `resetWorkout`. */
    method ResetWorkout()
      requires Valid()
      modifies this
      ensures State() == Reset(old(State())) && Valid()
    {
      route, figures := [], Zeroed;
      timer := timer.(paused := 0);
      pending := Pending(0.0, 0.0);
    }
  }
}
