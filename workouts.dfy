/**
 * The workout record every screen reads, and the descending sorts the screens
 * and the store apply to copies of the workout list.
 */
module Workouts {
  import opened Wrappers

  /** A parsed `new Date(workout.date)`: epoch milliseconds and local calendar fields (month 0..11). */
  datatype Stamp = Stamp(epochMs: int, year: nat, month: nat, day: nat)

  datatype LatLng = LatLng(latitude: real, longitude: real)

  /**
   * A stored workout. Fields the JSON may lack are options; `kind` is the
   * `type` field.
   */
  datatype Workout = Workout(
    id: Option<string>,
    kind: Option<string>,
    date: Option<Stamp>,
    duration: Option<real>,
    distance: Option<real>,
    calories: Option<real>,
    steps: Option<real>,
    route: seq<LatLng>,
    elevationGain: Option<real>,
    fromHealthKit: bool)

  /** `x || 0` on a numeric field: a missing or zero value reads as 0. */
  function OrZero(x: Option<real>): (r: real)
    ensures x.None? ==> r == 0.0
    ensures x.Some? ==> r == x.value
  {
    x.GetOr(0.0)
  }

  /** `Math.trunc` on reals (what `parseInt` does to a number). */
  function Trunc(x: real): (r: int)
    ensures x >= 0.0 ==> r as real <= x < r as real + 1.0
    ensures x < 0.0 ==> r as real - 1.0 < x <= r as real
  {
    if x >= 0.0 then x.Floor else -((-x).Floor)
  }

  /** The keys the lists are sorted by. */
  datatype SortKey = ByDate | ByDistance | ByDuration

  /**
   * The value compared for a key: the date's epoch time, or the distance /
   * duration with a missing value as 0. A missing date reads as `new Date(0)`,
   * as the activity list's comparator makes it; the other sorts would compare
   * NaN there (see the README's Left out section).
   */
  function Key(w: Workout, k: SortKey): real {
    match k
    case ByDate => if w.date.Some? then w.date.value.epochMs as real else 0.0
    case ByDistance => OrZero(w.distance)
    case ByDuration => OrZero(w.duration)
  }

  /** Largest key first. */
  predicate SortedDesc(s: seq<Workout>, k: SortKey) {
    forall i, j :: 0 <= i < j < |s| ==> Key(s[i], k) >= Key(s[j], k)
  }

  /**
   * Inserts w before the first element whose key is not larger than its own.
   * `SortDesc` inserts each head into the sorted rest of the list, so the head
   * goes before the later elements with an equal key.
   */
  function Insert(w: Workout, s: seq<Workout>, k: SortKey): (r: seq<Workout>)
    ensures |r| == |s| + 1
  {
    if s == [] then [w]
    else if Key(s[0], k) > Key(w, k) then [s[0]] + Insert(w, s[1..], k)
    else [w] + s
  }

  lemma {:induction false} InsertMultiset(w: Workout, s: seq<Workout>, k: SortKey)
    ensures multiset(Insert(w, s, k)) == multiset(s) + multiset{w}
    decreases |s|
  {
    if s != [] {
      assert s == [s[0]] + s[1..];
      if Key(s[0], k) > Key(w, k) {
        InsertMultiset(w, s[1..], k);
      }
    }
  }

  /** Inserting a workout keyed at most `b` into a list keyed at most `b` keeps every key at most `b`. */
  lemma {:induction false} InsertBounded(w: Workout, s: seq<Workout>, k: SortKey, b: real)
    requires Key(w, k) <= b
    requires forall i :: 0 <= i < |s| ==> Key(s[i], k) <= b
    ensures forall i :: 0 <= i < |Insert(w, s, k)| ==> Key(Insert(w, s, k)[i], k) <= b
    decreases |s|
  {
    if s != [] && Key(s[0], k) > Key(w, k) {
      InsertBounded(w, s[1..], k, b);
    }
  }

  lemma {:induction false} InsertSorted(w: Workout, s: seq<Workout>, k: SortKey)
    requires SortedDesc(s, k)
    ensures SortedDesc(Insert(w, s, k), k)
    decreases |s|
  {
    if s != [] && Key(s[0], k) > Key(w, k) {
      InsertSorted(w, s[1..], k);
      InsertBounded(w, s[1..], k, Key(s[0], k));
    }
  }

  /** `[...s].sort((a, b) => key(b) - key(a))`: a stable sort by key, largest first (see `SortDescStable`). */
  function SortDesc(s: seq<Workout>, k: SortKey): (r: seq<Workout>)
    ensures |r| == |s|
  {
    if s == [] then [] else Insert(s[0], SortDesc(s[1..], k), k)
  }

  lemma {:induction false} SortDescSorted(s: seq<Workout>, k: SortKey)
    ensures SortedDesc(SortDesc(s, k), k)
  {
    if s != [] {
      SortDescSorted(s[1..], k);
      InsertSorted(s[0], SortDesc(s[1..], k), k);
    }
  }

  /** The sorted copy holds exactly the same workouts, the same number of times. */
  lemma {:induction false} SortDescPermutation(s: seq<Workout>, k: SortKey)
    ensures multiset(SortDesc(s, k)) == multiset(s)
  {
    if s != [] {
      SortDescPermutation(s[1..], k);
      InsertMultiset(s[0], SortDesc(s[1..], k), k);
      assert s == [s[0]] + s[1..];
    }
  }

  lemma SortDescMembers(s: seq<Workout>, k: SortKey)
    ensures forall w :: w in SortDesc(s, k) <==> w in s
  {
    var r := SortDesc(s, k);
    SortDescPermutation(s, k);
    forall w ensures w in r <==> w in s {
      assert w in r <==> w in multiset(r);
      assert w in s <==> w in multiset(s);
    }
  }

  /** The workouts of s whose key is v, in their order in s. */
  function KeyedAs(s: seq<Workout>, k: SortKey, v: real): (r: seq<Workout>)
    ensures |r| <= |s|
  {
    if s == [] then [] else Kept(s[0], k, v) + KeyedAs(s[1..], k, v)
  }

  /** The workout alone when its key is v, otherwise nothing. */
  function Kept(w: Workout, k: SortKey, v: real): seq<Workout> {
    if Key(w, k) == v then [w] else []
  }

  /** Inserting w puts it in front of the workouts that share its key and moves no other. */
  lemma {:induction false} InsertKeyed(w: Workout, s: seq<Workout>, k: SortKey, v: real)
    ensures KeyedAs(Insert(w, s, k), k, v) == Kept(w, k, v) + KeyedAs(s, k, v)
    decreases |s|
  {
    if s == [] {
      KeyedAsCons(w, [], k, v);
      assert [w] + [] == [w];
    } else if Key(s[0], k) > Key(w, k) {
      InsertKeyed(w, s[1..], k, v);
      assert [s[0]] + s[1..] == s;
      InsertKeyedBehind(w, s, k, v);
    } else {
      KeyedAsCons(w, s, k, v);
    }
  }

  /** The step of `InsertKeyed` where w passes the head of the list. */
  lemma InsertKeyedBehind(w: Workout, s: seq<Workout>, k: SortKey, v: real)
    requires s != [] && Key(s[0], k) > Key(w, k) && s == [s[0]] + s[1..]
    requires KeyedAs(Insert(w, s[1..], k), k, v) == Kept(w, k, v) + KeyedAs(s[1..], k, v)
    ensures KeyedAs(Insert(w, s, k), k, v) == Kept(w, k, v) + KeyedAs(s, k, v)
  {
    var x, t := s[0], s[1..];
    InsertBehind(w, x, t, k);
    KeyedAsCons(x, Insert(w, t, k), k, v);
    KeyedAsCons(x, t, k, v);
    KeptExclusive(x, w, k, v);
    SwapOneEmpty(Kept(x, k, v), Kept(w, k, v), KeyedAs(t, k, v));
  }

  lemma InsertBehind(w: Workout, x: Workout, t: seq<Workout>, k: SortKey)
    requires Key(x, k) > Key(w, k)
    ensures Insert(w, [x] + t, k) == [x] + Insert(w, t, k)
  {
    assert ([x] + t)[0] == x && ([x] + t)[1..] == t;
  }

  /** Two workouts with different keys are never both kept. */
  lemma KeptExclusive(x: Workout, w: Workout, k: SortKey, v: real)
    requires Key(x, k) > Key(w, k)
    ensures Kept(x, k, v) == [] || Kept(w, k, v) == []
  {
  }

  lemma SwapOneEmpty<T>(a: seq<T>, b: seq<T>, c: seq<T>)
    requires a == [] || b == []
    ensures a + (b + c) == b + (a + c)
  {
  }

  lemma KeyedAsCons(x: Workout, t: seq<Workout>, k: SortKey, v: real)
    ensures KeyedAs([x] + t, k, v) == Kept(x, k, v) + KeyedAs(t, k, v)
  {
    assert ([x] + t)[0] == x && ([x] + t)[1..] == t;
  }


  /**
   * The sort is stable: for every key value, the workouts holding it come out
   * in the order they went in. With `SortDescSorted` and
   * `SortDescPermutation` this determines the sorted list completely.
   */
  lemma {:induction false} SortDescStable(s: seq<Workout>, k: SortKey, v: real)
    ensures KeyedAs(SortDesc(s, k), k, v) == KeyedAs(s, k, v)
  {
    if s != [] {
      SortDescStable(s[1..], k, v);
      InsertKeyed(s[0], SortDesc(s[1..], k), k, v);
    }
  }

  /** The workouts with a given key in a prefix come first among those in the whole list. */
  lemma {:induction false} KeyedAsPrefix(s: seq<Workout>, k: SortKey, v: real, n: nat)
    requires n <= |s|
    ensures KeyedAs(s[..n], k, v) <= KeyedAs(s, k, v)
    decreases n
  {
    if n > 0 {
      KeyedAsPrefix(s[1..], k, v, n - 1);
      assert s[..n][0] == s[0] && s[..n][1..] == s[1..][..n - 1];
    }
  }
}
