/**
 * The duration and pace renderings the tracker and the history screens show.
 * Each rendering comes with a reader, and a lemma that reading the text back
 * yields the quantity it was made from (whole seconds, whole minutes).
 */
module TimeFormat {
  import opened Wrappers
  import opened Text

  /** Splitting a total number of seconds into hours, minutes and seconds recovers it. */
  lemma HmsSplit(t: nat)
    ensures (t / 3600) * 3600 + ((t % 3600) / 60) * 60 + t % 60 == t
    ensures (t % 3600) / 60 < 60
    ensures t / 60 == (t / 3600) * 60 + (t % 3600) / 60
  {
    var h, r := t / 3600, t % 3600;
    var m, s := r / 60, r % 60;
    assert t == 60 * (h * 60 + m) + s;
    DivModUnique(t, 60, h * 60 + m, s);
  }

  /** Quotient and remainder are the only such pair. */
  lemma DivModUnique(x: int, d: int, q: int, r: int)
    requires d > 0 && x == d * q + r && 0 <= r < d
    ensures x / d == q && x % d == r
  {
    var k := x / d - q;
    assert d * k == r - x % d;
    MulAwayFromZero(d, k);
  }

  lemma MulAwayFromZero(d: int, k: int)
    requires d > 0
    ensures k >= 1 ==> d * k >= d
    ensures k <= -1 ==> d * k <= -d
  {
  }

  /** Whole minutes of a millisecond count, taken through whole seconds. */
  lemma MsMinutes(ms: nat)
    ensures (ms / 1000) / 60 == ms / 60000
  {
    var q, r := ms / 60000, ms % 60000;
    assert ms == 1000 * (60 * q + r / 1000) + r % 1000;
    DivModUnique(ms, 1000, 60 * q + r / 1000, r % 1000);
    DivModUnique(ms / 1000, 60, q, r / 1000);
  }

  // ---------------------------------------------------------------------
  // Colon-separated clock text: "H:MM:SS" and "M:SS"
  // ---------------------------------------------------------------------

  /** Numbers read in base 60, most significant first, after the value `acc`. */
  function Base60(ns: seq<nat>, acc: nat): nat {
    if ns == [] then acc else Base60(ns[1..], acc * 60 + ns[0])
  }

  /** Reads clock text back as a number of seconds (minutes, for a pace). */
  function ReadClock(r: string): Option<nat> {
    match ReadNumbers(r, ':', None)
    case Some(ns) => Some(Base60(ns, 0))
    case None => None
  }

  /** Three digit groups joined by colons read back in base 60. */
  lemma ClockThree(a: string, b: string, c: string)
    requires AllDigits(a) && AllDigits(b) && AllDigits(c)
    requires |a| >= 1 && |b| >= 1 && |c| >= 1
    ensures ReadClock(a + ":" + b + ":" + c) == Some((ParseDigits(a) * 60 + ParseDigits(b)) * 60 + ParseDigits(c))
  {
    var x, y, z := ParseDigits(a), ParseDigits(b), ParseDigits(c);
    assert a + ":" + b + ":" + c == a + [':'] + (b + [':'] + c);
    DigitsThen(a, b + [':'] + c, ':');
    DigitsThen(b, c, ':');
    DigitsLast(c, ':');
    var yz := [y] + [z];
    assert ReadNumbers(b + [':'] + c, ':', None) == Some(yz);
    var ns := [x] + yz;
    assert ns[1..] == yz && yz[1..] == [z] && [z][1..] == [];
    assert Base60([z], x * 60 + y) == (x * 60 + y) * 60 + z;
    assert Base60(yz, x) == Base60([z], x * 60 + y);
    assert Base60(ns, 0) == Base60(yz, x);
  }

  /** Two digit groups joined by a colon read back in base 60. */
  lemma ClockTwo(a: string, b: string)
    requires AllDigits(a) && AllDigits(b) && |a| >= 1 && |b| >= 1
    ensures ReadClock(a + ":" + b) == Some(ParseDigits(a) * 60 + ParseDigits(b))
  {
    var x, y := ParseDigits(a), ParseDigits(b);
    assert a + ":" + b == a + [':'] + b;
    DigitsThen(a, b, ':');
    DigitsLast(b, ':');
    var ns := [x] + [y];
    assert ns[1..] == [y] && [y][1..] == [];
    assert Base60([y], x) == x * 60 + y;
  }

  lemma LongClock(h: nat, m: nat, s: nat)
    requires m < 60 && s < 60
    ensures ReadClock(NatToString(h) + ":" + Pad2(m) + ":" + Pad2(s)) == Some(h * 3600 + m * 60 + s)
  {
    ParseNatToString(h);
    ParsePad2(m);
    ParsePad2(s);
    ClockThree(NatToString(h), Pad2(m), Pad2(s));
  }

  lemma ShortClock(m: nat, s: nat)
    requires s < 60
    ensures ReadClock(NatToString(m) + ":" + Pad2(s)) == Some(m * 60 + s)
  {
    ParseNatToString(m);
    ParsePad2(s);
    ClockTwo(NatToString(m), Pad2(s));
  }

  // ---------------------------------------------------------------------
  // The shapes of the texts
  // ---------------------------------------------------------------------

  /** A number as `String(n)` writes it: digits, with no leading zero unless the number is 0. */
  predicate Plain(d: string) {
    |d| >= 1 && AllDigits(d) && (|d| > 1 ==> d[0] != '0')
  }

  /** A padded clock group: exactly two digits, the first at most 5, so its value is under 60. */
  predicate Sexagesimal(d: string) {
    |d| == 2 && '0' <= d[0] <= '5' && IsDigit(d[1])
  }

  /** Clock text of `groups` colon-separated groups: a plain leading number, then padded groups. */
  predicate ClockShape(r: string, groups: nat) {
    var gs := Split(r, ':');
    |gs| == groups && Plain(gs[0]) && forall i :: 1 <= i < |gs| ==> Sexagesimal(gs[i])
  }

  /** A plain number under 60: one digit, or two with the first at most 5. */
  predicate Under60(d: string) {
    Plain(d) && (|d| == 1 || d[0] <= '5')
  }

  /** An amount: a plain number followed by its unit letter. */
  predicate Amount(p: string, unit: char) {
    |p| >= 2 && p[|p| - 1] == unit && Plain(p[..|p| - 1])
  }

  /**
   * Hour/minute text: an hours amount when `hours`, a minutes amount when
   * `minutes`, separated by one space; after hours the minutes are under 60.
   */
  predicate HmShape(r: string, hours: bool, minutes: bool) {
    var ps := Split(r, ' ');
    |ps| == (if hours then 1 else 0) + (if minutes then 1 else 0)
    && (hours ==> Amount(ps[0], 'h'))
    && (minutes ==> Amount(ps[|ps| - 1], 'm'))
    && (hours && minutes ==> Under60(ps[1][..|ps[1]| - 1]))
  }

  lemma PlainNat(n: nat)
    ensures Plain(NatToString(n))
  {
  }

  lemma Under60Nat(m: nat)
    requires m < 60
    ensures Under60(NatToString(m))
  {
    if m >= 10 {
      assert NatToString(m) == NatToString(m / 10) + [DigitChar(m % 10)];
      assert NatToString(m / 10) == [DigitChar(m / 10)];
    }
  }

  lemma Pad2Sexagesimal(m: nat)
    requires m < 60
    ensures Sexagesimal(Pad2(m))
  {
    Under60Nat(m);
  }

  lemma ClockShapeThree(h: nat, m: nat, s: nat)
    requires m < 60 && s < 60
    ensures ClockShape(NatToString(h) + ":" + Pad2(m) + ":" + Pad2(s), 3)
  {
    var a, b, c := NatToString(h), Pad2(m), Pad2(s);
    DigitsWithout(a, ':');
    DigitsWithout(b, ':');
    DigitsWithout(c, ':');
    ColonGroups3(a, b, c);
    Pad2Sexagesimal(m);
    Pad2Sexagesimal(s);
  }

  /** Three groups without a colon, joined by colons, split back into the three. */
  lemma ColonGroups3(a: string, b: string, c: string)
    requires ':' !in a && ':' !in b && ':' !in c
    ensures Split(a + ":" + b + ":" + c, ':') == [a, b, c]
  {
    assert a + ":" + b + ":" + c == a + [':'] + (b + [':'] + c);
    SplitAt(a, b + [':'] + c, ':');
    SplitAt(b, c, ':');
    SplitNone(c, ':');
  }

  /** Two groups without a colon, joined by a colon, split back into the two. */
  lemma ColonGroups2(a: string, b: string)
    requires ':' !in a && ':' !in b
    ensures Split(a + ":" + b, ':') == [a, b]
  {
    assert a + ":" + b == a + [':'] + b;
    SplitAt(a, b, ':');
    SplitNone(b, ':');
  }

  lemma ClockShapeTwo(m: nat, s: nat)
    requires s < 60
    ensures ClockShape(NatToString(m) + ":" + Pad2(s), 2)
  {
    var a, b := NatToString(m), Pad2(s);
    DigitsWithout(a, ':');
    DigitsWithout(b, ':');
    ColonGroups2(a, b);
    Pad2Sexagesimal(s);
  }

  lemma AmountOf(n: nat, unit: char)
    requires !IsDigit(unit) && unit != ' '
    ensures Amount(NatToString(n) + [unit], unit)
    ensures ' ' !in NatToString(n) + [unit]
  {
    var p := NatToString(n) + [unit];
    assert p[..|p| - 1] == NatToString(n);
    DigitsWithout(NatToString(n), ' ');
  }

  /** An hours amount, one space, and a minutes amount under 60 make hour-and-minute text. */
  lemma HmJoin(a: string, b: string)
    requires Amount(a, 'h') && Amount(b, 'm') && ' ' !in a && ' ' !in b
    requires Under60(b[..|b| - 1])
    ensures HmShape(a + " " + b, true, true)
  {
    assert a + " " + b == a + [' '] + b;
    SplitAt(a, b, ' ');
    SplitNone(b, ' ');
  }

  lemma HmShapeBoth(h: nat, m: nat)
    requires m < 60
    ensures HmShape(NatToString(h) + "h " + NatToString(m) + "m", true, true)
  {
    var x, y := NatToString(h), NatToString(m);
    AmountOf(h, 'h');
    AmountOf(m, 'm');
    Under60Nat(m);
    UnitsJoined(x, y);
    HmJoin(x + ['h'], y + ['m']);
  }

  lemma UnitsJoined(x: string, y: string)
    ensures x + "h " + y + "m" == (x + ['h']) + " " + (y + ['m'])
    ensures (y + ['m'])[..|y + ['m']| - 1] == y
    ensures x + "h " + y + "m" == x + ['h'] + ([' '] + (y + ['m'] + []))
  {
  }

  lemma HmShapeOne(n: nat, unit: char)
    requires unit == 'h' || unit == 'm'
    ensures HmShape(NatToString(n) + [unit], unit == 'h', unit == 'm')
  {
    AmountOf(n, unit);
    SplitNone(NatToString(n) + [unit], ' ');
  }

  /**
   * `formatTime` of the live tracker (and, identically, of the older tracker):
   * the whole seconds of `ms` as "H:MM:SS" when there is at least one hour,
   * otherwise "M:SS".
   */
  function ClockTime(ms: nat): (r: string)
    ensures ReadClock(r) == Some(ms / 1000)
    ensures ClockShape(r, if ms / 1000 >= 3600 then 3 else 2)
  {
    var t := ms / 1000;
    var h, m, s := t / 3600, (t % 3600) / 60, t % 60;
    HmsSplit(t);
    if h > 0 then
      LongClock(h, m, s);
      ClockShapeThree(h, m, s);
      NatToString(h) + ":" + Pad2(m) + ":" + Pad2(s)
    else
      ShortClock(m, s);
      ClockShapeTwo(m, s);
      NatToString(m) + ":" + Pad2(s)
  }

  /** `formatTime` of the route detail screen: "0m" for a zero duration, otherwise the clock text. */
  function RouteClockTime(ms: nat): (r: string)
    ensures ms == 0 ==> r == "0m"
    ensures ms > 0 ==> ReadClock(r) == Some(ms / 1000)
    ensures ms > 0 ==> ClockShape(r, if ms / 1000 >= 3600 then 3 else 2)
  {
    if ms == 0 then "0m" else ClockTime(ms)
  }

  // ---------------------------------------------------------------------
  // Hour/minute text: "Hh Mm", "Hh", "Mm"
  // ---------------------------------------------------------------------

  /**
   * Reads hour/minute text as minutes: numbers each followed by a unit, 'h' or
   * 'm', the pieces separated by spaces. `cur` is the number being read.
   */
  function ScanMinutes(s: string, acc: nat, cur: Option<nat>): Option<nat>
    decreases |s|
  {
    if s == [] then
      if cur.None? then Some(acc) else None
    else if IsDigit(s[0]) then
      ScanMinutes(s[1..], acc, Some(cur.GetOr(0) * 10 + DigitValue(s[0])))
    else if s[0] == 'h' && cur.Some? then
      ScanMinutes(s[1..], acc + cur.value * 60, None)
    else if s[0] == 'm' && cur.Some? then
      ScanMinutes(s[1..], acc + cur.value, None)
    else if s[0] == ' ' && cur.None? then
      ScanMinutes(s[1..], acc, None)
    else None
  }

  function ReadMinutes(r: string): Option<nat> {
    ScanMinutes(r, 0, None)
  }

  /** Reading a run of digits adds them to the number being read. */
  lemma {:induction false} ScanDigitRun(d: string, rest: string, acc: nat, cur: Option<nat>)
    requires AllDigits(d) && |d| >= 1
    ensures ScanMinutes(d + rest, acc, cur) == ScanMinutes(rest, acc, Some(ParseDigitsFrom(d, cur.GetOr(0))))
    decreases |d|
  {
    var s := d + rest;
    assert s[0] == d[0];
    assert s[1..] == d[1..] + rest;
    var next := cur.GetOr(0) * 10 + DigitValue(d[0]);
    if |d| > 1 {
      ScanDigitRun(d[1..], rest, acc, Some(next));
    }
  }

  /** The piece "<n><unit>" adds n hours or n minutes to what was read before it. */
  lemma UnitPiece(n: nat, u: char, rest: string, acc: nat)
    requires u == 'h' || u == 'm'
    ensures ScanMinutes(NatToString(n) + [u] + rest, acc, None)
         == ScanMinutes(rest, acc + n * (if u == 'h' then 60 else 1), None)
  {
    var d := NatToString(n);
    assert d + [u] + rest == d + ([u] + rest);
    ScanDigitRun(d, [u] + rest, acc, None);
    ParseNatToString(n);
    assert ([u] + rest)[1..] == rest;
  }

  lemma MinutesText(m: nat)
    ensures ReadMinutes(NatToString(m) + "m") == Some(m)
  {
    UnitPiece(m, 'm', [], 0);
    assert NatToString(m) + "m" == NatToString(m) + ['m'] + [];
  }

  lemma HoursText(h: nat)
    ensures ReadMinutes(NatToString(h) + "h") == Some(h * 60)
  {
    UnitPiece(h, 'h', [], 0);
    assert NatToString(h) + "h" == NatToString(h) + ['h'] + [];
  }

  lemma HoursMinutesText(h: nat, m: nat)
    ensures ReadMinutes(NatToString(h) + "h " + NatToString(m) + "m") == Some(h * 60 + m)
  {
    var x, y := NatToString(h), NatToString(m);
    var rest := y + ['m'] + [];
    var text := x + ['h'] + ([' '] + rest);
    UnitsJoined(x, y);
    assert ScanMinutes(text, 0, None) == ScanMinutes([' '] + rest, h * 60, None) by {
      UnitPiece(h, 'h', [' '] + rest, 0);
    }
    assert ScanMinutes([' '] + rest, h * 60, None) == ScanMinutes(rest, h * 60, None) by {
      assert ([' '] + rest)[1..] == rest;
    }
    assert ScanMinutes(rest, h * 60, None) == Some(h * 60 + m) by {
      UnitPiece(m, 'm', [], h * 60);
    }
  }

  /**
   * `formatTime` of the activity list and of the statistics screen (the two agree
   * on every duration): whole hours and minutes as "Hh Mm", or "Mm" under an hour.
   */
  function HoursMinutes(ms: nat): (r: string)
    ensures ReadMinutes(r) == Some(ms / 60000)
    ensures HmShape(r, ms / 1000 >= 3600, true)
    ensures ms < 60000 ==> r == "0m"
  {
    var t := ms / 1000;
    var h, m := t / 3600, (t % 3600) / 60;
    HmsSplit(t);
    MsMinutes(ms);
    if h > 0 then
      HoursMinutesText(h, m);
      HmShapeBoth(h, m);
      NatToString(h) + "h " + NatToString(m) + "m"
    else
      MinutesText(m);
      HmShapeOne(m, 'm');
      NatToString(m) + "m"
  }

  /**
   * `formatDuration` of the home screen, on a whole number of minutes: "0m" for
   * none, "Hh Mm", "Hh" on the hour, or "Mm" under an hour.
   */
  function FormatDuration(totalMinutes: nat): (r: string)
    ensures ReadMinutes(r) == Some(totalMinutes)
    ensures totalMinutes == 0 ==> r == "0m"
  {
    var h, m := totalMinutes / 60, totalMinutes % 60;
    if totalMinutes == 0 then
      MinutesText(0);
      "0m"
    else if h > 0 then
      if m > 0 then
        HoursMinutesText(h, m);
        NatToString(h) + "h " + NatToString(m) + "m"
      else
        HoursText(h);
        NatToString(h) + "h"
    else
      MinutesText(m);
      NatToString(m) + "m"
  }

  /** The duration text has an hours part from an hour on, and a minutes part unless it is on the hour. */
  lemma FormatDurationShape(totalMinutes: nat)
    ensures HmShape(FormatDuration(totalMinutes), totalMinutes >= 60, totalMinutes < 60 || totalMinutes % 60 != 0)
  {
    var h, m := totalMinutes / 60, totalMinutes % 60;
    if totalMinutes == 0 {
      HmShapeOne(0, 'm');
    } else if h > 0 {
      assert totalMinutes >= 60;
      if m > 0 {
        HmShapeBoth(h, m);
      } else {
        HmShapeOne(h, 'h');
      }
    } else {
      assert totalMinutes < 60 && m == totalMinutes;
      HmShapeOne(m, 'm');
    }
  }

  // ---------------------------------------------------------------------
  // Pace text: "M:SS" per kilometre, or "--:--"
  // ---------------------------------------------------------------------

  lemma PaceSeconds(pace: real)
    requires pace > 0.0
    ensures pace.Floor >= 0
    ensures 0 <= ((pace - pace.Floor as real) * 60.0).Floor < 60
    ensures pace.Floor * 60 + ((pace - pace.Floor as real) * 60.0).Floor == (pace * 60.0).Floor
  {
    var k := pace.Floor;
    var x := (pace - k as real) * 60.0;
    assert pace * 60.0 == x + (k * 60) as real;
    var fx := x.Floor;
    assert (fx + k * 60) as real <= pace * 60.0 < (fx + k * 60 + 1) as real;
  }

  /**
   * `formatPace` of the older tracker: "--:--" when there is no pace, otherwise
   * whole minutes and the remaining whole seconds of a pace given in minutes.
   */
  function FormatPace(pace: real): (r: string)
    requires pace >= 0.0
    ensures pace == 0.0 ==> r == "--:--"
    ensures pace > 0.0 ==> ReadClock(r) == Some((pace * 60.0).Floor)
    ensures pace > 0.0 ==> ClockShape(r, 2)
  {
    if pace == 0.0 then "--:--"
    else
      PaceSeconds(pace);
      var minutes := pace.Floor;
      var seconds := ((pace - minutes as real) * 60.0).Floor;
      ShortClock(minutes, seconds);
      ClockShapeTwo(minutes, seconds);
      NatToString(minutes) + ":" + Pad2(seconds)
  }
}
