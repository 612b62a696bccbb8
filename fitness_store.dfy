/**
 * The workout store of the fitness context: the list of saved workouts and the
 * operations the screens call on it (add, delete, statistics, recent, lookup,
 * clear).
 */
module FitnessStore {
  import opened Wrappers
  import opened Workouts

  // ---------------------------------------------------------------------
  // Statistics (`getStats`)
  // ---------------------------------------------------------------------

  /** The four quantities the statistics add up; a workout counts 1 towards Count. */
  datatype Field = Count | Distance | Calories | Duration

  /** What one workout contributes to a field (`workout.x || 0`). */
  function Amount(w: Workout, f: Field): real {
    match f
    case Count => 1.0
    case Distance => OrZero(w.distance)
    case Calories => OrZero(w.calories)
    case Duration => OrZero(w.duration)
  }

  /** Reference sum of a field over a list of workouts. */
  function Total(ws: seq<Workout>, f: Field): real {
    if ws == [] then 0.0 else Total(ws[..|ws| - 1], f) + Amount(ws[|ws| - 1], f)
  }

  /** The key the per-type table uses: the `type` field as a property name. */
  function TypeName(w: Workout): string {
    w.kind.GetOr("undefined")
  }

  /** Reference sum of a field over the workouts of one type. */
  function TypeTotal(ws: seq<Workout>, t: string, f: Field): real {
    if ws == [] then 0.0
    else TypeTotal(ws[..|ws| - 1], t, f) + (if TypeName(ws[|ws| - 1]) == t then Amount(ws[|ws| - 1], f) else 0.0)
  }

  datatype TypeStats = TypeStats(count: nat, distance: real, calories: real, duration: real)

  function StatAmount(s: TypeStats, f: Field): real {
    match f
    case Count => s.count as real
    case Distance => s.distance
    case Calories => s.calories
    case Duration => s.duration
  }

  const NoStats := TypeStats(0, 0.0, 0.0, 0.0)

  /** Adds one workout to a per-type record. */
  function AddTo(s: TypeStats, w: Workout): (r: TypeStats)
    ensures forall f :: StatAmount(r, f) == StatAmount(s, f) + Amount(w, f)
  {
    TypeStats(s.count + 1, s.distance + OrZero(w.distance), s.calories + OrZero(w.calories), s.duration + OrZero(w.duration))
  }

  /** One property of `workoutsByType`, in insertion order. */
  datatype Entry = Entry(name: string, stats: TypeStats)

  datatype Stats = Stats(
    totalWorkouts: nat,
    totalDistance: real,
    totalCalories: real,
    totalDuration: real,
    byType: seq<Entry>)

  const NoWorkouts := Stats(0, 0.0, 0.0, 0.0, [])

  function TotalOf(st: Stats, f: Field): real {
    match f
    case Count => st.totalWorkouts as real
    case Distance => st.totalDistance
    case Calories => st.totalCalories
    case Duration => st.totalDuration
  }

  /** Position of the entry named t, or -1. */
  function FindEntry(es: seq<Entry>, t: string): (j: int)
    ensures -1 <= j < |es|
    ensures j >= 0 ==> es[j].name == t
    ensures j == -1 <==> forall i :: 0 <= i < |es| ==> es[i].name != t
  {
    if es == [] then -1
    else if es[|es| - 1].name == t then |es| - 1
    else FindEntry(es[..|es| - 1], t)
  }

  /** The `reduce` step: counts one workout into the totals and into its type's entry. */
  function Record(st: Stats, w: Workout): Stats {
    var t := TypeName(w);
    var j := FindEntry(st.byType, t);
    var byType :=
      if j < 0 then st.byType + [Entry(t, AddTo(NoStats, w))]
      else st.byType[j := Entry(t, AddTo(st.byType[j].stats, w))];
    Stats(st.totalWorkouts + 1,
          st.totalDistance + OrZero(w.distance),
          st.totalCalories + OrZero(w.calories),
          st.totalDuration + OrZero(w.duration),
          byType)
  }

  /** `workouts.reduce(step, initialStats)`. */
  function Tally(ws: seq<Workout>): Stats {
    if ws == [] then NoWorkouts else Record(Tally(ws[..|ws| - 1]), ws[|ws| - 1])
  }

  /** Sum of a field over the per-type entries. */
  function EntrySum(es: seq<Entry>, f: Field): real {
    if es == [] then 0.0 else EntrySum(es[..|es| - 1], f) + StatAmount(es[|es| - 1].stats, f)
  }

  lemma {:induction false} EntrySumUpdate(es: seq<Entry>, j: nat, e: Entry, f: Field)
    requires j < |es|
    ensures EntrySum(es[j := e], f) == EntrySum(es, f) - StatAmount(es[j].stats, f) + StatAmount(e.stats, f)
  {
    var n := |es| - 1;
    if j < n {
      assert es[j := e][..n] == es[..n][j := e];
      EntrySumUpdate(es[..n], j, e, f);
    } else {
      assert es[j := e][..n] == es[..n];
    }
  }

  predicate DistinctNames(es: seq<Entry>) {
    forall i, k :: 0 <= i < k < |es| ==> es[i].name != es[k].name
  }

  /** The per-type table is exactly the per-type sums of the workouts counted so far. */
  predicate Describes(st: Stats, ws: seq<Workout>) {
    DistinctNames(st.byType)
    && (forall i, f :: 0 <= i < |st.byType| ==> StatAmount(st.byType[i].stats, f) == TypeTotal(ws, st.byType[i].name, f))
    && (forall i :: 0 <= i < |ws| ==> FindEntry(st.byType, TypeName(ws[i])) >= 0)
  }

  lemma TypeTotalNone(ws: seq<Workout>, t: string, f: Field)
    requires forall i :: 0 <= i < |ws| ==> TypeName(ws[i]) != t
    ensures TypeTotal(ws, t, f) == 0.0
  {
    if ws != [] {
      TypeTotalNone(ws[..|ws| - 1], t, f);
    }
  }

  /** A new workout's sums: its own type gains its amounts, every other type is unchanged. */
  lemma RecordSums(st: Stats, ws: seq<Workout>, w: Workout, i: int, f: Field)
    requires Describes(st, ws)
    requires 0 <= i < |Record(st, w).byType|
    ensures StatAmount(Record(st, w).byType[i].stats, f) == TypeTotal(ws + [w], Record(st, w).byType[i].name, f)
  {
    var ws' := ws + [w];
    var t := TypeName(w);
    var j := FindEntry(st.byType, t);
    var r := Record(st, w);
    assert ws'[..|ws'| - 1] == ws;
    if i < |st.byType| && i != j {
      assert r.byType[i] == st.byType[i];
    } else if j < 0 {
      forall k | 0 <= k < |ws| ensures TypeName(ws[k]) != t {
        assert FindEntry(st.byType, TypeName(ws[k])) >= 0;
      }
      TypeTotalNone(ws, t, f);
    }
  }

  /** After a workout is counted, every counted workout's type has an entry. */
  lemma RecordCovers(st: Stats, ws: seq<Workout>, w: Workout, i: int)
    requires Describes(st, ws)
    requires 0 <= i < |ws| + 1
    ensures FindEntry(Record(st, w).byType, TypeName((ws + [w])[i])) >= 0
  {
    var j := FindEntry(st.byType, TypeName(w));
    var r := Record(st, w);
    var n := TypeName((ws + [w])[i]);
    if i < |ws| {
      assert (ws + [w])[i] == ws[i];
      var k := FindEntry(st.byType, n);
      assert r.byType[k].name == n;
    } else {
      var k := if j < 0 then |st.byType| else j;
      assert r.byType[k].name == n;
    }
  }

  lemma RecordDescribes(st: Stats, ws: seq<Workout>, w: Workout)
    requires Describes(st, ws)
    ensures Describes(Record(st, w), ws + [w])
  {
    var r := Record(st, w);
    forall i, f | 0 <= i < |r.byType|
      ensures StatAmount(r.byType[i].stats, f) == TypeTotal(ws + [w], r.byType[i].name, f)
    {
      RecordSums(st, ws, w, i, f);
    }
    forall i | 0 <= i < |ws + [w]| ensures FindEntry(r.byType, TypeName((ws + [w])[i])) >= 0 {
      RecordCovers(st, ws, w, i);
    }
  }

  lemma {:induction false} TallyDescribes(ws: seq<Workout>)
    ensures Describes(Tally(ws), ws)
  {
    if ws != [] {
      var init := ws[..|ws| - 1];
      TallyDescribes(init);
      assert init + [ws[|ws| - 1]] == ws;
      RecordDescribes(Tally(init), init, ws[|ws| - 1]);
    }
  }

  /**
   * `getStats`: the totals are the sums of the fields (missing ones as 0), and
   * the per-type entries add up to the same totals.
   */
  lemma {:induction false} TallyTotals(ws: seq<Workout>, f: Field)
    ensures TotalOf(Tally(ws), f) == Total(ws, f)
    ensures EntrySum(Tally(ws).byType, f) == Total(ws, f)
    ensures Tally(ws).totalWorkouts == |ws|
  {
    if ws != [] {
      var init := ws[..|ws| - 1];
      var w := ws[|ws| - 1];
      var st := Tally(init);
      TallyTotals(init, f);
      var j := FindEntry(st.byType, TypeName(w));
      if j >= 0 {
        EntrySumUpdate(st.byType, j, Entry(TypeName(w), AddTo(st.byType[j].stats, w)), f);
      } else {
        var es := st.byType + [Entry(TypeName(w), AddTo(NoStats, w))];
        assert es[..|es| - 1] == st.byType;
      }
    }
  }

  /** Every type present in the list has an entry whose fields are that type's sums. */
  lemma TallyByType(ws: seq<Workout>, t: string, f: Field)
    requires exists i :: 0 <= i < |ws| && TypeName(ws[i]) == t
    ensures FindEntry(Tally(ws).byType, t) >= 0
    ensures StatAmount(Tally(ws).byType[FindEntry(Tally(ws).byType, t)].stats, f) == TypeTotal(ws, t, f)
  {
    TallyDescribes(ws);
  }

  // ---------------------------------------------------------------------
  // Lists: add, delete, lookup, recent
  // ---------------------------------------------------------------------

  /**
   * The record `addWorkout` stores: a generated id and date, each overridden by
   * the argument's own field when it has one (the spread comes last).
   */
  function Stamped(draft: Workout, freshId: string, freshDate: Stamp): (r: Workout)
    ensures r.id.Some? && r.date.Some?
    ensures draft.id.Some? ==> r.id == draft.id
    ensures draft.id.None? ==> r.id == Some(freshId)
    ensures draft.date.Some? ==> r.date == draft.date
    ensures draft.date.None? ==> r.date == Some(freshDate)
    ensures r.(id := draft.id, date := draft.date) == draft
  {
    draft.(id := Some(draft.id.GetOr(freshId)), date := Some(draft.date.GetOr(freshDate)))
  }

  /** `filter(workout => workout.id !== id)`. */
  function Without(ws: seq<Workout>, id: string): (r: seq<Workout>)
    ensures |r| <= |ws|
    ensures forall i :: 0 <= i < |r| ==> r[i].id != Some(id)
  {
    if ws == [] then []
    else if ws[0].id == Some(id) then Without(ws[1..], id)
    else [ws[0]] + Without(ws[1..], id)
  }

  /** Deletion keeps exactly the workouts with another id. */
  lemma {:induction false} WithoutMembers(ws: seq<Workout>, id: string, w: Workout)
    ensures w in Without(ws, id) <==> w in ws && w.id != Some(id)
  {
    if ws != [] {
      WithoutMembers(ws[1..], id, w);
      assert w in ws <==> w == ws[0] || w in ws[1..];
    }
  }

  /** Deletion keeps the order of what remains: deleting from a concatenation deletes from each part. */
  lemma {:induction false} WithoutAppend(a: seq<Workout>, b: seq<Workout>, id: string)
    ensures Without(a + b, id) == Without(a, id) + Without(b, id)
  {
    if a != [] {
      assert (a + b)[1..] == a[1..] + b;
      WithoutAppend(a[1..], b, id);
    } else {
      assert a + b == b;
    }
  }

  /** Deleting twice is deleting once. */
  lemma {:induction false} WithoutIdempotent(ws: seq<Workout>, id: string)
    ensures Without(Without(ws, id), id) == Without(ws, id)
  {
    if ws != [] {
      WithoutIdempotent(ws[1..], id);
    }
  }

  /** `find(workout => workout.id === id)`: the position of the first match, or -1. */
  function FirstWithId(ws: seq<Workout>, id: string): (i: int)
    ensures -1 <= i < |ws|
    ensures i >= 0 ==> ws[i].id == Some(id) && forall k :: 0 <= k < i ==> ws[k].id != Some(id)
    ensures i == -1 <==> forall k :: 0 <= k < |ws| ==> ws[k].id != Some(id)
  {
    if ws == [] then -1
    else if ws[0].id == Some(id) then 0
    else var i := FirstWithId(ws[1..], id); if i < 0 then -1 else i + 1
  }

  /** After a deletion no lookup of that id succeeds. */
  lemma LookupAfterDelete(ws: seq<Workout>, id: string)
    ensures FirstWithId(Without(ws, id), id) == -1
  {
  }

  /** The first `n` elements (`slice(0, n)`). */
  function Take(s: seq<Workout>, n: nat): (r: seq<Workout>)
    ensures |r| == if n < |s| then n else |s|
    ensures r == s[..|r|]
  {
    if n < |s| then s[..n] else s
  }

  /** `[...workouts].sort(newest first).slice(0, limit)`. */
  function Recent(ws: seq<Workout>, limit: nat): seq<Workout> {
    Take(SortDesc(ws, ByDate), limit)
  }

  /**
   * The recent list: at most `limit` workouts, newest first, drawn from the
   * store, and no workout left out is newer than one that was kept.
   */
  lemma RecentProperties(ws: seq<Workout>, limit: nat)
    ensures |Recent(ws, limit)| == if limit < |ws| then limit else |ws|
    ensures SortedDesc(Recent(ws, limit), ByDate)
    ensures multiset(Recent(ws, limit)) <= multiset(ws)
    ensures forall i, w :: 0 <= i < |Recent(ws, limit)| && w in multiset(ws) - multiset(Recent(ws, limit))
              ==> Key(w, ByDate) <= Key(Recent(ws, limit)[i], ByDate)
  {
    var s := SortDesc(ws, ByDate);
    SortDescSorted(ws, ByDate);
    SortDescPermutation(ws, ByDate);
    TakeNewest(s, limit, ByDate);
  }

  /** The first n of a list sorted newest first: sorted, drawn from the list, and at least as new as the rest. */
  lemma TakeNewest(s: seq<Workout>, n: nat, k: SortKey)
    requires SortedDesc(s, k)
    ensures SortedDesc(Take(s, n), k)
    ensures multiset(Take(s, n)) <= multiset(s)
    ensures forall i, w :: 0 <= i < |Take(s, n)| && w in multiset(s) - multiset(Take(s, n))
              ==> Key(w, k) <= Key(Take(s, n)[i], k)
  {
    TakeSorted(s, n, k);
    TakeLeavesRest(s, n);
    PrefixDominates(s, |Take(s, n)|, k);
  }

  lemma TakeSorted(s: seq<Workout>, n: nat, k: SortKey)
    requires SortedDesc(s, k)
    ensures SortedDesc(Take(s, n), k)
  {
    var r := Take(s, n);
    assert forall i :: 0 <= i < |r| ==> r[i] == s[i];
  }

  /** What `slice(0, n)` leaves out is the rest of the list. */
  lemma TakeLeavesRest(s: seq<Workout>, n: nat)
    ensures multiset(Take(s, n)) <= multiset(s)
    ensures multiset(s) - multiset(Take(s, n)) == multiset(s[|Take(s, n)|..])
  {
    var r := Take(s, n);
    assert s == r + s[|r|..];
  }

  /** In a list sorted newest first, every entry of a prefix is at least as new as every entry after it. */
  lemma PrefixDominates(s: seq<Workout>, n: nat, k: SortKey)
    requires SortedDesc(s, k) && n <= |s|
    ensures forall i, w :: 0 <= i < n && w in multiset(s[n..]) ==> Key(w, k) <= Key(s[i], k)
  {
    forall i, w | 0 <= i < n && w in multiset(s[n..])
      ensures Key(w, k) <= Key(s[i], k)
    {
      var rest := s[n..];
      assert w in rest;
      var j :| 0 <= j < |rest| && rest[j] == w;
      assert s[n + j] == w;
    }
  }

  lemma RecentTiesInOrder(ws: seq<Workout>, limit: nat, v: real)
    ensures KeyedAs(Recent(ws, limit), ByDate, v) <= KeyedAs(ws, ByDate, v)
  {
    var s := SortDesc(ws, ByDate);
    SortDescStable(ws, ByDate, v);
    KeyedAsPrefix(s, ByDate, v, |Recent(ws, limit)|);
    assert Recent(ws, limit) == s[..|Recent(ws, limit)|];
  }


  // ---------------------------------------------------------------------
  // The store
  // ---------------------------------------------------------------------

  class Store {
    var workouts: seq<Workout>

    constructor()
      ensures workouts == []
    {
      workouts := [];
    }

    /** `addWorkout`: exactly one record appended, earlier records untouched. */
    method AddWorkout(draft: Workout, freshId: string, freshDate: Stamp)
      modifies this
      ensures workouts == old(workouts) + [Stamped(draft, freshId, freshDate)]
    {
      workouts := workouts + [Stamped(draft, freshId, freshDate)];
    }

    /** `deleteWorkout`: every workout with that id removed, the rest kept in order. */
    method DeleteWorkout(id: string)
      modifies this
      ensures workouts == Without(old(workouts), id)
    {
      workouts := Without(workouts, id);
    }

    /** `clearWorkouts`. */
    method ClearWorkouts()
      modifies this
      ensures workouts == []
    {
      workouts := [];
    }

    /** `getWorkoutById`: the first workout with the id, or none. */
    function GetWorkoutById(id: string): (r: Option<Workout>)
      reads this
      ensures r.None? <==> forall k :: 0 <= k < |workouts| ==> workouts[k].id != Some(id)
      ensures r.Some? ==> r.value.id == Some(id) && r.value in workouts
      ensures r.Some? ==> exists i :: (0 <= i < |workouts| && workouts[i] == r.value
                                       && forall k :: 0 <= k < i ==> workouts[k].id != Some(id))
    {
      var i := FirstWithId(workouts, id);
      if i < 0 then None else Some(workouts[i])
    }

    /** `getRecentWorkouts(limit)`; the stored list itself is not reordered. */
    method GetRecentWorkouts(limit: nat := 5) returns (r: seq<Workout>)
      ensures r == Recent(workouts, limit)
      ensures |r| == if limit < |workouts| then limit else |workouts|
      ensures SortedDesc(r, ByDate)
      ensures multiset(r) <= multiset(workouts)
    {
      RecentProperties(workouts, limit);
      r := Recent(workouts, limit);
    }

    /** `getStats`: the reduce over the workouts, one record at a time. */
    method GetStats() returns (st: Stats)
      ensures st == Tally(workouts)
      ensures st.totalWorkouts == |workouts|
      ensures forall f :: TotalOf(st, f) == Total(workouts, f) && EntrySum(st.byType, f) == Total(workouts, f)
    {
      st := NoWorkouts;
      for i := 0 to |workouts|
        invariant st == Tally(workouts[..i])
      {
        assert workouts[..i + 1][..i] == workouts[..i];
        st := Record(st, workouts[i]);
      }
      assert workouts[..|workouts|] == workouts;
      forall f ensures TotalOf(st, f) == Total(workouts, f) && EntrySum(st.byType, f) == Total(workouts, f) {
        TallyTotals(workouts, f);
      }
      TallyTotals(workouts, Count);
    }
  }
}
