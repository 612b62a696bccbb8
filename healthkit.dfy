/**
 * The HealthKit import: activity-type mapping, conversion of fetched records
 * into app workouts, and the merge of imported workouts into the stored list.
 */
module HealthKit {
  import opened Wrappers
  import opened Text
  import opened Workouts
  import opened Numbers

  /** The app type each HealthKit activity type is shown as. */
  const TypeMap: map<string, string> := map[
    "HKWorkoutActivityTypeRunning" := "Running",
    "HKWorkoutActivityTypeWalking" := "Walking",
    "HKWorkoutActivityTypeCycling" := "Cycling",
    "HKWorkoutActivityTypeFunctionalStrengthTraining" := "Strength",
    "HKWorkoutActivityTypeYoga" := "Yoga",
    "HKWorkoutActivityTypeSwimming" := "Swimming",
    "HKWorkoutActivityTypeHiking" := "Walking",
    "HKWorkoutActivityTypeElliptical" := "Cardio",
    "HKWorkoutActivityTypeRowing" := "Rowing",
    "HKWorkoutActivityTypeStairs" := "Cardio",
    "HKWorkoutActivityTypePilates" := "Pilates",
    "HKWorkoutActivityTypeDance" := "Dance",
    "HKWorkoutActivityTypeBoxing" := "Boxing",
    "HKWorkoutActivityTypeTennis" := "Tennis",
    "HKWorkoutActivityTypeBasketball" := "Basketball",
    "HKWorkoutActivityTypeSoccer" := "Soccer",
    "HKWorkoutActivityTypeAmericanFootball" := "Football"]

  /** The types an imported workout can have. */
  const AppTypes: set<string> := {
    "Running", "Walking", "Cycling", "Strength", "Yoga", "Swimming", "Cardio", "Rowing",
    "Pilates", "Dance", "Boxing", "Tennis", "Basketball", "Soccer", "Football", "Other"}

  /** `mapWorkoutType`: the table entry, or "Other" for a type the table lacks. */
  function MapWorkoutType(t: string): (r: string)
    ensures r in AppTypes
    ensures r == "Other" <==> t !in TypeMap
    ensures t in TypeMap ==> r == TypeMap[t]
  {
    if t in TypeMap then TypeMap[t] else "Other"
  }

  /** Hiking is shown as walking; ellipticals and stairs both as cardio. */
  lemma MergedTypes()
    ensures MapWorkoutType("HKWorkoutActivityTypeHiking") == MapWorkoutType("HKWorkoutActivityTypeWalking") == "Walking"
    ensures MapWorkoutType("HKWorkoutActivityTypeElliptical") == MapWorkoutType("HKWorkoutActivityTypeStairs") == "Cardio"
    ensures MapWorkoutType("HKWorkoutActivityTypeFunctionalStrengthTraining") == "Strength"
    ensures MapWorkoutType("HKWorkoutActivityTypeAmericanFootball") == "Football"
  {
  }

  /**
   * A record as HealthKit returns it: `startDate` as text and as the date it
   * parses to, `duration` in seconds, `totalDistance` in km, energy in kcal.
   */
  datatype HkWorkout = HkWorkout(
    activityType: string,
    startDate: string,
    start: Option<Stamp>,
    duration: Option<real>,
    totalDistance: Option<real>,
    totalEnergyBurned: Option<real>)

  /** The imported id: `healthkit-${startDate}-${index}`. */
  function ImportId(startDate: string, index: nat): string {
    "healthkit-" + startDate + "-" + NatToString(index)
  }

  /**
   * The value `x.toFixed(2)` writes: the nearest number of hundredths, a
   * half-way value rounded away from zero (the magnitude is rounded, then the
   * sign restored).
   */
  function Fixed2(x: real): (r: real)
    ensures -0.005 <= r - x <= 0.005
    ensures (r * 100.0).Floor as real == r * 100.0
    ensures x >= 0.0 ==> r >= 0.0
  {
    var n: int := if x >= 0.0 then Round(x * 100.0) else -Round(-x * 100.0);
    assert n as real - 0.5 <= x * 100.0 <= n as real + 0.5;
    var r := n as real / 100.0;
    assert r * 100.0 == n as real;
    r
  }

  /** A value already in hundredths is written as it is. */
  lemma Fixed2Exact(c: int)
    ensures Fixed2(c as real / 100.0) == c as real / 100.0
  {
    var x := c as real / 100.0;
    assert x * 100.0 == c as real;
    if x >= 0.0 {
      assert Round(x * 100.0) == c;
    } else {
      assert Round(-x * 100.0) == -c;
    }
  }

  /** One converted record; the distance is stored as `toFixed(2)` leaves it. */
  function Convert(h: HkWorkout, index: nat): (w: Workout)
    ensures w.id == Some(ImportId(h.startDate, index))
    ensures w.kind == Some(MapWorkoutType(h.activityType)) && w.date == h.start
    ensures w.duration == Some(OrZero(h.duration) * 1000.0)
    ensures w.distance == Some(Fixed2(OrZero(h.totalDistance)))
    ensures w.distance.Some? && -0.005 <= w.distance.value - OrZero(h.totalDistance) <= 0.005
    ensures h.totalEnergyBurned.None? ==> w.calories == Some(0.0)
    ensures h.totalEnergyBurned.Some? && h.totalEnergyBurned.value >= 0.0 ==>
              w.calories.Some? && w.calories.value <= h.totalEnergyBurned.value < w.calories.value + 1.0
    ensures w.steps == Some(0.0) && w.route == [] && w.fromHealthKit
  {
    Workout(
      id := Some(ImportId(h.startDate, index)),
      kind := Some(MapWorkoutType(h.activityType)),
      date := h.start,
      duration := Some(OrZero(h.duration) * 1000.0),
      distance := Some(Fixed2(OrZero(h.totalDistance))),
      calories := Some(Trunc(OrZero(h.totalEnergyBurned)) as real),
      steps := Some(0.0),
      route := [],
      elevationGain := None,
      fromHealthKit := true)
  }

  /** `convertHealthKitWorkouts` from position `from` on: a map that keeps length and order. */
  function ConvertFrom(hs: seq<HkWorkout>, from: nat): (ws: seq<Workout>)
    ensures |ws| == |hs|
    ensures forall i :: 0 <= i < |hs| ==> ws[i] == Convert(hs[i], from + i)
  {
    if hs == [] then [] else [Convert(hs[0], from)] + ConvertFrom(hs[1..], from + 1)
  }

  function ConvertAll(hs: seq<HkWorkout>): (ws: seq<Workout>)
    ensures |ws| == |hs|
    ensures forall i :: 0 <= i < |hs| ==> ws[i] == Convert(hs[i], i)
  {
    ConvertFrom(hs, 0)
  }

  /** In text ending in '-' and a digit run, no '-' comes after the one before the run. */
  lemma DashPosition(a: string, d: string, b: string, e: string)
    requires AllDigits(d) && AllDigits(e)
    requires a + "-" + d == b + "-" + e
    ensures |b| <= |a|
  {
    var s := a + "-" + d;
    var t := b + "-" + e;
    assert t[|b|] == '-';
    assert s[|b|] == '-';
    assert forall i :: |a| < i < |s| ==> s[i] == d[i - |a| - 1];
  }

  /** If two texts end in '-' and a run of digits and agree, the digit runs agree. */
  lemma DashDigitsSuffix(a: string, d: string, b: string, e: string)
    requires AllDigits(d) && AllDigits(e)
    requires a + "-" + d == b + "-" + e
    ensures d == e
  {
    DashPosition(a, d, b, e);
    DashPosition(b, e, a, d);
    var s := a + "-" + d;
    assert d == s[|s| - |d|..];
    assert e == s[|s| - |e|..];
  }

  /** Records at different positions get different ids, whatever their start dates. */
  lemma ImportIdsDistinct(hs: seq<HkWorkout>, i: nat, j: nat)
    requires i < |hs| && j < |hs| && i != j
    ensures ConvertAll(hs)[i].id != ConvertAll(hs)[j].id
  {
    var a, b := hs[i].startDate, hs[j].startDate;
    if ImportId(a, i) == ImportId(b, j) {
      assert ImportId(a, i) == ("healthkit-" + a) + "-" + NatToString(i);
      assert ImportId(b, j) == ("healthkit-" + b) + "-" + NatToString(j);
      DashDigitsSuffix("healthkit-" + a, NatToString(i), "healthkit-" + b, NatToString(j));
      NatToStringInjective(i, j);
    }
  }

  /** The ids of a list of workouts, as `new Set(workouts.map(w => w.id))`. */
  function Ids(ws: seq<Workout>): (ids: set<Option<string>>)
    ensures forall w :: w in ws ==> w.id in ids
    ensures forall id :: id in ids ==> exists w :: w in ws && w.id == id
  {
    set w | w in ws :: w.id
  }

  /** The imported workouts whose id is not already taken. */
  function Fresh(imported: seq<Workout>, ids: set<Option<string>>): (r: seq<Workout>)
    ensures |r| <= |imported|
  {
    if imported == [] then []
    else if imported[0].id in ids then Fresh(imported[1..], ids)
    else [imported[0]] + Fresh(imported[1..], ids)
  }

  lemma {:induction false} FreshMembers(imported: seq<Workout>, ids: set<Option<string>>, w: Workout)
    ensures w in Fresh(imported, ids) <==> w in imported && w.id !in ids
  {
    if imported != [] {
      FreshMembers(imported[1..], ids, w);
      assert w in imported <==> w == imported[0] || w in imported[1..];
    }
  }

  /** Every imported copy with a free id survives, repeats included. */
  lemma {:induction false} FreshCount(imported: seq<Workout>, ids: set<Option<string>>, w: Workout)
    requires w.id !in ids
    ensures multiset(Fresh(imported, ids))[w] == multiset(imported)[w]
  {
    if imported != [] {
      FreshCount(imported[1..], ids, w);
      assert imported == [imported[0]] + imported[1..];
    }
  }

  /** The merge step of `syncWorkouts`: nothing imported leaves the list as it is. */
  function Merge(existing: seq<Workout>, imported: seq<Workout>): seq<Workout> {
    if imported == [] then existing
    else SortDesc(existing + Fresh(imported, Ids(existing)), ByDate)
  }

  /**
   * The merge keeps every existing workout, adds exactly the imported ones with
   * a new id (repeats among them included), and orders the result newest first.
   */
  lemma MergeProperties(existing: seq<Workout>, imported: seq<Workout>)
    requires imported != []
    ensures multiset(Merge(existing, imported)) == multiset(existing) + multiset(Fresh(imported, Ids(existing)))
    ensures SortedDesc(Merge(existing, imported), ByDate)
    ensures forall w :: w in Merge(existing, imported) <==> w in existing || (w in imported && w.id !in Ids(existing))
  {
    var added := Fresh(imported, Ids(existing));
    SortDescPermutation(existing + added, ByDate);
    SortDescSorted(existing + added, ByDate);
    SortDescMembers(existing + added, ByDate);
    forall w ensures w in Merge(existing, imported) <==> w in existing || (w in imported && w.id !in Ids(existing)) {
      FreshMembers(imported, Ids(existing), w);
    }
  }

  /** An imported workout with a new id appears in the merge as often as it was imported, on top of existing copies. */
  lemma MergeKeepsRepeats(existing: seq<Workout>, imported: seq<Workout>, w: Workout)
    requires imported != [] && w.id !in Ids(existing)
    ensures multiset(Merge(existing, imported))[w] == multiset(imported)[w]
  {
    MergeProperties(existing, imported);
    FreshCount(imported, Ids(existing), w);
    assert w !in existing;
  }
}
