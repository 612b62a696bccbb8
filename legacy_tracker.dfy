/**
 * The older workout tracker: fixes added straight into the totals, a
 * continuous pause-aware timer whose tick also updates pace and calories,
 * the angle helpers of its compass, and the start / pause / resume / stop
 * life cycle.
 */
module LegacyTracker {
  import opened Wrappers
  import opened Workouts
  import opened TimeFormat
  import LiveTracker

  // ---------------------------------------------------------------------
  // Angles
  // ---------------------------------------------------------------------

  /**
   * `getShortestAngleDifference`: `target - current`, less 360 when over 180,
   * plus 360 when under -180.
   */
  function ShortestAngleDifference(target: real, current: real): (d: real)
    ensures 0.0 <= target < 360.0 && 0.0 <= current < 360.0 ==> -180.0 <= d <= 180.0
    ensures d == target - current || d == target - current - 360.0 || d == target - current + 360.0
  {
    var diff := target - current;
    var diff := if diff > 180.0 then diff - 360.0 else diff;
    if diff < -180.0 then diff + 360.0 else diff
  }

  /**
   * For headings in 0..360 the difference is the shortest turn: turning by it
   * from `current` lands on `target` (modulo 360), and no other such turn is
   * shorter.
   */
  lemma ShortestTurn(target: real, current: real, k: int)
    requires 0.0 <= target < 360.0 && 0.0 <= current < 360.0
    ensures var d := ShortestAngleDifference(target, current);
            (current + d == target || current + d == target - 360.0 || current + d == target + 360.0)
            && LiveTracker.Abs(d) <= LiveTracker.Abs(target - current + 360.0 * k as real)
  {
    var d := ShortestAngleDifference(target, current);
    var diff := target - current;
    if k >= 2 {
      assert 360.0 * k as real >= 720.0;
    } else if k <= -2 {
      assert 360.0 * k as real <= -720.0;
    }
  }

  /**
   * `calculateSmoothHeading`: 0 for no readings, the reading itself for one;
   * for more, the circular mean, given here as the `atan2` result in degrees,
   * moved into 0..360.
   */
  function SmoothHeading(headings: seq<real>, meanDegrees: real): (h: real)
    ensures headings == [] ==> h == 0.0
    ensures |headings| == 1 ==> h == headings[0]
    ensures |headings| > 1 ==> h == meanDegrees || h == meanDegrees + 360.0
    ensures |headings| > 1 && -180.0 <= meanDegrees <= 180.0 ==> 0.0 <= h <= 360.0
  {
    if |headings| == 0 then 0.0
    else if |headings| == 1 then headings[0]
    else if meanDegrees < 0.0 then meanDegrees + 360.0
    else meanDegrees
  }

  // ---------------------------------------------------------------------
  // Calories, pace and labels
  // ---------------------------------------------------------------------

  /** The calorie multiplier per kilogram and kilometre. */
  function Multiplier(activityType: string): (m: real)
    ensures activityType == "Running" ==> m == 0.75
    ensures activityType == "Cycling" ==> m == 0.5
    ensures activityType == "Walking" ==> m == 0.4
    ensures activityType !in {"Running", "Cycling", "Walking"} ==> m == 0.6
  {
    match activityType
    case "Running" => 0.75
    case "Cycling" => 0.5
    case "Walking" => 0.4
    case _ => 0.6
  }

  /** The tick's calories: distance times a fixed 70 kg times the multiplier. */
  function TickCalories(distanceKm: real, activityType: string): (c: real)
    ensures distanceKm >= 0.0 ==> 0.0 <= c <= distanceKm * 52.5
    ensures distanceKm == 0.0 ==> c == 0.0
  {
    distanceKm * 70.0 * Multiplier(activityType)
  }

  /**
   * The tick's calories are the per-kilometre burn times the distance: 52.5
   * kcal running, 35 cycling, 28 walking and 42 for any other type.
   */
  lemma TickCaloriesPerKm(distanceKm: real, activityType: string)
    ensures TickCalories(distanceKm, activityType) == distanceKm * TickCalories(1.0, activityType)
    ensures activityType == "Running" ==> TickCalories(1.0, activityType) == 52.5
    ensures activityType == "Cycling" ==> TickCalories(1.0, activityType) == 35.0
    ensures activityType == "Walking" ==> TickCalories(1.0, activityType) == 28.0
    ensures activityType !in {"Running", "Cycling", "Walking"} ==> TickCalories(1.0, activityType) == 42.0
  {
  }

  /** Running burns the most per kilometre, walking the least. */
  lemma MultiplierOrder(activityType: string, d: real)
    requires d > 0.0
    ensures TickCalories(d, "Walking") <= TickCalories(d, activityType) <= TickCalories(d, "Running")
  {
  }

  /** The pace in minutes per km: elapsed minutes over the distance. */
  function Pace(elapsedMs: int, distanceKm: real): (p: real)
    requires distanceKm > 0.0
    ensures p * distanceKm == elapsedMs as real / 60000.0
    ensures elapsedMs >= 0 ==> p >= 0.0
  {
    (elapsedMs as real / 60000.0) / distanceKm
  }

  /** The pace label shown: "--:--" when there is none, otherwise minutes and seconds per km. */
  lemma PaceShown(elapsedMs: nat, distanceKm: real)
    requires distanceKm > 0.0
    ensures elapsedMs == 0 ==> FormatPace(Pace(elapsedMs, distanceKm)) == "--:--"
    ensures elapsedMs > 0 ==> ReadClock(FormatPace(Pace(elapsedMs, distanceKm)))
                              == Some((Pace(elapsedMs, distanceKm) * 60.0).Floor)
  {
    if elapsedMs > 0 {
      assert Pace(elapsedMs, distanceKm) > 0.0;
    }
  }

  /** `getSpeedLabel`: running and walking show a pace, anything else a speed unit. */
  function SpeedLabel(activityType: string, useMiles: bool): (l: string)
    ensures l == "pace" <==> activityType == "Running" || activityType == "Walking"
    ensures l != "pace" ==> (l == "mph" <==> useMiles)
  {
    if activityType == "Running" || activityType == "Walking" then "pace"
    else if useMiles then "mph" else "km/h"
  }

  /** A reported speed in m/s as km/h, never negative. */
  function SpeedKmh(metresPerSecond: real): (v: real)
    ensures v >= 0.0
    ensures metresPerSecond >= 0.0 ==> v == metresPerSecond * 3.6
    ensures metresPerSecond < 0.0 ==> v == 0.0
  {
    if metresPerSecond * 3.6 > 0.0 then metresPerSecond * 3.6 else 0.0
  }

  // ---------------------------------------------------------------------
  // Timer
  // ---------------------------------------------------------------------

  /**
   * The timer refs: the start time, the paused time, whether the interval is
   * running, and whether the interval ref was ever set (it is never cleared).
   */
  datatype Clock = Clock(start: int, paused: int, running: bool, timerSet: bool)

  function ElapsedAt(c: Clock, now: int): int {
    now - c.start
  }

  /** `startTimer`: the start moves back by the paused time, so the elapsed time resumes from it. */
  function ClockStarted(c: Clock, now: int): (r: Clock)
    ensures r.running && r.timerSet && ElapsedAt(r, now) == c.paused
  {
    Clock(now - c.paused, c.paused, true, true)
  }

  /** `pauseTimer`: once an interval was ever set, the elapsed time is stored and the interval stops. */
  function ClockPaused(c: Clock, now: int): (r: Clock)
    ensures c.timerSet ==> !r.running && r.paused == ElapsedAt(c, now)
    ensures !c.timerSet ==> r == c
  {
    if c.timerSet then c.(paused := now - c.start, running := false) else c
  }

  function ClockAfterBreaks(c: Clock, breaks: seq<LiveTracker.Break>): Clock
    decreases breaks
  {
    if breaks == [] then c
    else ClockAfterBreaks(ClockStarted(ClockPaused(c, breaks[0].pauseAt), breaks[0].resumeAt), breaks[1..])
  }

  /**
   * The elapsed time is continuous across any number of pause/resume cycles:
   * after them it is the running time less the breaks.
   */
  lemma {:induction false} ClockContinuous(c: Clock, breaks: seq<LiveTracker.Break>, now: int)
    requires c.timerSet
    ensures ClockAfterBreaks(c, breaks).timerSet
    ensures ElapsedAt(ClockAfterBreaks(c, breaks), now) == ElapsedAt(c, now) - LiveTracker.BreakTime(breaks)
    decreases breaks
  {
    if breaks != [] {
      var b := breaks[0];
      var c1 := ClockStarted(ClockPaused(c, b.pauseAt), b.resumeAt);
      assert ElapsedAt(c1, now) == ElapsedAt(c, now) - (b.resumeAt - b.pauseAt);
      ClockContinuous(c1, breaks[1..], now);
    }
  }

  /** This timer and the live tracker's pause that stores the shown time agree on every schedule. */
  lemma AgreesWithLiveTimer(start: int, breaks: seq<LiveTracker.Break>, now: int)
    ensures ElapsedAt(ClockAfterBreaks(Clock(start, 0, true, true), breaks), now)
         == LiveTracker.Elapsed(LiveTracker.AfterBreaks(LiveTracker.Timer(start, 0, LiveTracker.FromStart), breaks), now)
  {
    ClockContinuous(Clock(start, 0, true, true), breaks, now);
    LiveTracker.BreaksContinuous(LiveTracker.Timer(start, 0, LiveTracker.FromStart), breaks, now);
  }

  // ---------------------------------------------------------------------
  // The tracker component
  // ---------------------------------------------------------------------

  /** The figures on screen. */
  datatype Figures = Figures(
    distance: real,
    duration: int,
    speed: real,
    calories: real,
    pace: real,
    elevationGain: real,
    steps: int)

  const Zeroed: Figures := Figures(0.0, 0, 0.0, 0.0, 0.0, 0.0, 0)

  datatype LegacyState = LegacyState(
    activityType: string,
    isTracking: bool,
    isPaused: bool,
    location: Option<LatLng>,
    route: seq<LatLng>,
    lastFix: Option<LiveTracker.Fix>,
    figures: Figures,
    clock: Clock)

  /** No pause without tracking; distance, climb, speed and steps never negative. */
  predicate ValidState(s: LegacyState) {
    (s.isPaused ==> s.isTracking)
    && s.figures.distance >= 0.0 && s.figures.elevationGain >= 0.0 && s.figures.speed >= 0.0
    && s.figures.steps >= 0
  }

  /**
   * The location callback: the fix joins the route; the step from the last
   * fix (`delta` km) goes straight into the distance and any climb into the
   * elevation gain; a reported non-zero speed is shown in km/h.
   */
  function Located(s: LegacyState, f: LiveTracker.Fix, delta: real, speed: Option<real>): (r: LegacyState)
    ensures r.route == s.route + [f.position] && r.lastFix == Some(f) && r.location == Some(f.position)
    ensures r.figures.distance == s.figures.distance + (if s.lastFix.Some? then delta else 0.0)
    ensures r.figures.elevationGain == s.figures.elevationGain + LiveTracker.ClimbFrom(s.lastFix, f)
    ensures speed.Some? && speed.value != 0.0 ==> r.figures.speed == SpeedKmh(speed.value)
    ensures !(speed.Some? && speed.value != 0.0) ==> r.figures.speed == s.figures.speed
    ensures ValidState(s) && delta >= 0.0 ==> ValidState(r)
  {
    var g := s.figures;
    var g := if s.lastFix.Some? then g.(distance := g.distance + delta) else g;
    var g := g.(elevationGain := g.elevationGain + LiveTracker.ClimbFrom(s.lastFix, f));
    var g := if speed.Some? && speed.value != 0.0 then g.(speed := SpeedKmh(speed.value)) else g;
    s.(route := s.route + [f.position], figures := g, location := Some(f.position), lastFix := Some(f))
  }

  /**
   * The interval's tick as written: the callback reads the `distance` of the
   * render that started the timer (`captured`), not the current one. The
   * duration comes from the clock; the pace and calories from `captured`.
   */
  function TickedAsWritten(s: LegacyState, now: int, captured: real): (r: LegacyState)
    ensures s.clock.running ==> r.figures.duration == ElapsedAt(s.clock, now)
                                && r.figures.calories == TickCalories(captured, s.activityType)
    ensures s.clock.running && captured > 0.0 ==> r.figures.pace == Pace(ElapsedAt(s.clock, now), captured)
    ensures s.clock.running && captured <= 0.0 ==> r.figures.pace == s.figures.pace
    ensures s.clock.running ==> r == s.(figures := r.figures)
                                && r.figures.distance == s.figures.distance
    ensures !s.clock.running ==> r == s
    ensures ValidState(s) ==> ValidState(r)
  {
    if !s.clock.running then s
    else
      var elapsed := ElapsedAt(s.clock, now);
      var g := s.figures.(duration := elapsed);
      var g := if captured > 0.0 then g.(pace := Pace(elapsed, captured)) else g;
      s.(figures := g.(calories := TickCalories(captured, s.activityType)))
  }

  /**
   * The tick with the stale read corrected: duration, and with some distance
   * the pace; calories from the distance covered so far.
   */
  function Ticked(s: LegacyState, now: int): (r: LegacyState)
    ensures s.clock.running ==> r.figures.duration == ElapsedAt(s.clock, now)
                                && r.figures.calories == TickCalories(s.figures.distance, s.activityType)
    ensures s.clock.running && s.figures.distance > 0.0 ==> r.figures.pace == Pace(ElapsedAt(s.clock, now), s.figures.distance)
    ensures s.clock.running && s.figures.distance <= 0.0 ==> r.figures.pace == s.figures.pace
    ensures !s.clock.running ==> r == s
    ensures ValidState(s) ==> ValidState(r)
  {
    TickedAsWritten(s, now, s.figures.distance)
  }

  /**
   * As written, a workout started from zero distance and never paused keeps
   * the distance captured at its start, 0: every tick sets the calories to 0
   * and leaves the pace as it was, however far the user has gone. The
   * corrected tick counts the distance covered.
   */
  lemma StaleDistanceAsWritten(s: LegacyState, now: int)
    requires s.clock.running && s.figures.distance > 0.0
    ensures TickedAsWritten(s, now, 0.0).figures.calories == 0.0
    ensures TickedAsWritten(s, now, 0.0).figures.pace == s.figures.pace
    ensures Ticked(s, now).figures.calories > 0.0
  {
    TickCaloriesPerKm(s.figures.distance, s.activityType);
    TickCaloriesPerKm(0.0, s.activityType);
  }

  /** `startWorkout`: nothing without a location; otherwise tracking, the route just that location, the timer on. */
  function Started(s: LegacyState, now: int): (r: LegacyState)
    ensures s.location.None? ==> r == s
    ensures s.location.Some? ==> r.isTracking && !r.isPaused && r.route == [s.location.value]
                                 && r.clock == ClockStarted(s.clock, now)
    ensures ValidState(s) ==> ValidState(r)
  {
    if s.location.None? then s
    else s.(isTracking := true, isPaused := false, route := [s.location.value], clock := ClockStarted(s.clock, now))
  }

  function PausedAt(s: LegacyState, now: int): (r: LegacyState)
    ensures r.isPaused && r.clock == ClockPaused(s.clock, now)
    ensures ValidState(s) && s.isTracking ==> ValidState(r)
  {
    s.(isPaused := true, clock := ClockPaused(s.clock, now))
  }

  function ResumedAt(s: LegacyState, now: int): (r: LegacyState)
    ensures !r.isPaused && r.clock == ClockStarted(s.clock, now)
    ensures ValidState(s) ==> ValidState(r)
  {
    s.(isPaused := false, clock := ClockStarted(s.clock, now))
  }

  /** What `saveWorkout` stores: the figures and route as they were when stopping. */
  datatype Saved = Saved(kind: string, figures: Figures, route: seq<LatLng>)

  /** `stopWorkout` once confirmed: flags cleared, the interval stopped, the figures and paused time reset. */
  function StoppedAt(s: LegacyState): (r: LegacyState)
    ensures !r.isTracking && !r.isPaused && !r.clock.running
    ensures r.figures == Zeroed && r.route == [] && r.clock.paused == 0
    ensures ValidState(r)
  {
    s.(isTracking := false, isPaused := false, route := [], figures := Zeroed,
       clock := s.clock.(running := false, paused := 0))
  }

  class Tracker {
    var activityType: string
    var isTracking: bool
    var isPaused: bool
    var location: Option<LatLng>
    var route: seq<LatLng>
    var lastFix: Option<LiveTracker.Fix>
    var figures: Figures
    var clock: Clock

    function State(): LegacyState
      reads this
    {
      LegacyState(activityType, isTracking, isPaused, location, route, lastFix, figures, clock)
    }

    predicate Valid()
      reads this
    {
      ValidState(State())
    }

    constructor(kind: string)
      ensures State() == LegacyState(kind, false, false, None, [], None, Zeroed, Clock(0, 0, false, false))
      ensures Valid()
    {
      activityType, isTracking, isPaused := kind, false, false;
      location, route, lastFix := None, [], None;
      figures, clock := Zeroed, Clock(0, 0, false, false);
    }

    method OnLocation(f: LiveTracker.Fix, delta: real, speed: Option<real>)
      requires Valid() && delta >= 0.0
      modifies this
      ensures State() == Located(old(State()), f, delta, speed) && Valid()
    {
      route := route + [f.position];
      if lastFix.Some? {
        figures := figures.(distance := figures.distance + delta);
        figures := figures.(elevationGain := figures.elevationGain + LiveTracker.ClimbFrom(lastFix, f));
      }
      location, lastFix := Some(f.position), Some(f);
      if speed.Some? && speed.value != 0.0 {
        figures := figures.(speed := SpeedKmh(speed.value));
      }
    }

    method Tick(now: int)
      requires Valid()
      modifies this
      ensures State() == Ticked(old(State()), now) && Valid()
    {
      if clock.running {
        var elapsed := ElapsedAt(clock, now);
        figures := figures.(duration := elapsed);
        if figures.distance > 0.0 {
          figures := figures.(pace := Pace(elapsed, figures.distance));
        }
        figures := figures.(calories := TickCalories(figures.distance, activityType));
      }
    }

    /** The start button, shown while not tracking. */
    method StartWorkout(now: int)
      requires Valid() && !isTracking
      modifies this
      ensures State() == Started(old(State()), now) && Valid()
    {
      if location.None? {
        return;
      }
      isTracking, isPaused := true, false;
      route := [location.value];
      clock := ClockStarted(clock, now);
    }

    method PauseWorkout(now: int)
      requires Valid() && isTracking && !isPaused
      modifies this
      ensures State() == PausedAt(old(State()), now) && Valid()
    {
      isPaused := true;
      if clock.timerSet {
        clock := clock.(paused := now - clock.start, running := false);
      }
    }

    method ResumeWorkout(now: int)
      requires Valid() && isTracking && isPaused
      modifies this
      ensures State() == ResumedAt(old(State()), now) && Valid()
    {
      isPaused := false;
      clock := ClockStarted(clock, now);
    }

    /** The confirmed stop: the record saved from the figures at that moment, then the reset. */
    method StopWorkout() returns (saved: Saved)
      requires Valid()
      modifies this
      ensures saved == Saved(old(activityType), old(figures), old(route))
      ensures State() == StoppedAt(old(State())) && Valid()
    {
      saved := Saved(activityType, figures, route);
      isTracking, isPaused := false, false;
      clock := clock.(running := false, paused := 0);
      route, figures := [], Zeroed;
    }
  }
}
