/** The activity list screen: the type filter and the sort applied to the workouts. */
module ActivitiesScreen {
  import opened Wrappers
  import opened Text
  import opened Workouts

  /** The sort selector: "distance" and "duration" by value, anything else by date. */
  function SortKeyFor(sortBy: string): (k: SortKey)
    ensures k == ByDistance <==> sortBy == "distance"
    ensures k == ByDuration <==> sortBy == "duration"
  {
    if sortBy == "distance" then ByDistance
    else if sortBy == "duration" then ByDuration
    else ByDate
  }

  /** A workout passes a filter other than 'all' when it has a non-empty type equal to it, ignoring case. */
  predicate TypeMatches(w: Workout, filter: string) {
    w.kind.Some? && w.kind.value != "" && ToLower(w.kind.value) == ToLower(filter)
  }

  /** The filter step: 'all' keeps the list, any other value keeps the matching workouts in order. */
  function Matching(ws: seq<Workout>, filter: string): (r: seq<Workout>)
    ensures |r| <= |ws|
    ensures filter == "all" ==> r == ws
    ensures filter != "all" ==> forall i :: 0 <= i < |r| ==> TypeMatches(r[i], filter)
  {
    if filter == "all" || ws == [] then ws
    else if TypeMatches(ws[0], filter) then [ws[0]] + Matching(ws[1..], filter)
    else Matching(ws[1..], filter)
  }

  /** The filter keeps exactly the matching workouts. */
  lemma {:induction false} MatchingMembers(ws: seq<Workout>, filter: string, w: Workout)
    requires filter != "all"
    ensures w in Matching(ws, filter) <==> w in ws && TypeMatches(w, filter)
  {
    if ws != [] {
      MatchingMembers(ws[1..], filter, w);
      assert w in ws <==> w == ws[0] || w in ws[1..];
    }
  }

  /** Filters that differ only in letter case select the same workouts. */
  lemma {:induction false} MatchingIgnoresCase(ws: seq<Workout>, f: string, g: string)
    requires f != "all" && g != "all" && ToLower(f) == ToLower(g)
    ensures Matching(ws, f) == Matching(ws, g)
  {
    if ws != [] {
      MatchingIgnoresCase(ws[1..], f, g);
    }
  }

  /**
   * `filterAndSortWorkouts`: no list gives no rows; otherwise the filtered
   * copy, sorted largest key first (newest first for dates), holding exactly
   * the workouts that pass the filter; workouts with equal keys keep their
   * order in the list, as the stable `Array.prototype.sort` keeps it.
   */
  method FilterAndSort(workouts: Option<seq<Workout>>, filter: string, sortBy: string) returns (r: seq<Workout>)
    ensures workouts.None? ==> r == []
    ensures workouts.Some? ==> multiset(r) == multiset(Matching(workouts.value, filter))
    ensures workouts.Some? ==> SortedDesc(r, SortKeyFor(sortBy))
    ensures workouts.Some? && filter != "all" ==>
              forall w :: w in r <==> w in workouts.value && TypeMatches(w, filter)
    ensures workouts.Some? && filter == "all" ==> forall w :: w in r <==> w in workouts.value
    ensures workouts.Some? ==> forall v :: KeyedAs(r, SortKeyFor(sortBy), v)
                                          == KeyedAs(Matching(workouts.value, filter), SortKeyFor(sortBy), v)
  {
    if workouts.None? {
      return [];
    }
    var ws := workouts.value;
    var filtered := ws;
    if filter != "all" {
      filtered := Matching(filtered, filter);
    }
    var k := SortKeyFor(sortBy);
    r := SortDesc(filtered, k);
    SortDescSorted(filtered, k);
    SortDescPermutation(filtered, k);
    SortDescMembers(filtered, k);
    forall v ensures KeyedAs(r, k, v) == KeyedAs(filtered, k, v) {
      SortDescStable(filtered, k, v);
    }
    if filter != "all" {
      forall w ensures w in r <==> w in ws && TypeMatches(w, filter) {
        MatchingMembers(ws, filter, w);
      }
    }
  }
}
