/**
 * String helpers the screens rely on: decimal rendering of numbers (`String(n)`,
 * `padStart(2, '0')`), ASCII lower-casing (`toLowerCase`), substring search
 * (`includes`) and whitespace trimming (`trim`).
 */
module Text {
  import opened Wrappers

  predicate IsDigit(c: char) {
    '0' <= c <= '9'
  }

  predicate AllDigits(s: string) {
    forall i :: 0 <= i < |s| ==> IsDigit(s[i])
  }

  function DigitChar(d: nat): (c: char)
    requires d < 10
    ensures IsDigit(c) && c as int - '0' as int == d
  {
    ('0' as int + d) as char
  }

  function DigitValue(c: char): (d: nat)
    requires IsDigit(c)
    ensures d < 10
  {
    c as int - '0' as int
  }

  /** `String(n)` for a non-negative integer: its decimal digits, no leading zeros. */
  function NatToString(n: nat): (s: string)
    ensures |s| >= 1 && AllDigits(s)
    ensures |s| > 1 ==> s[0] != '0'
    ensures n < 10 ==> |s| == 1
    ensures 10 <= n < 100 ==> |s| == 2
  {
    if n < 10 then [DigitChar(n)] else NatToString(n / 10) + [DigitChar(n % 10)]
  }

  /** `String(n)` for any integer. */
  function IntToString(n: int): (s: string)
    ensures n >= 0 ==> s == NatToString(n)
    ensures n < 0 ==> s == "-" + NatToString(-n)
  {
    if n >= 0 then NatToString(n) else "-" + NatToString(-n)
  }

  /** The value of the digits of s appended, left to right, to the number `cur`. */
  function ParseDigitsFrom(s: string, cur: nat): nat
    requires AllDigits(s)
  {
    if s == [] then cur else ParseDigitsFrom(s[1..], cur * 10 + DigitValue(s[0]))
  }

  /** The value of a string of decimal digits (the reading `parseInt` gives it). */
  function ParseDigits(s: string): nat
    requires AllDigits(s)
  {
    ParseDigitsFrom(s, 0)
  }

  /** Appending one digit multiplies the value read so far by ten and adds the digit. */
  lemma {:induction false} ParseSnoc(s: string, c: char, cur: nat)
    requires AllDigits(s) && IsDigit(c)
    ensures ParseDigitsFrom(s + [c], cur) == ParseDigitsFrom(s, cur) * 10 + DigitValue(c)
    decreases |s|
  {
    if s == [] {
      assert ([c])[1..] == [];
    } else {
      assert (s + [c])[1..] == s[1..] + [c];
      ParseSnoc(s[1..], c, cur * 10 + DigitValue(s[0]));
    }
  }

  lemma {:induction false} ParseNatToString(n: nat)
    ensures ParseDigits(NatToString(n)) == n
  {
    if n < 10 {
      var s := [DigitChar(n)];
      assert s[1..] == [];
      assert ParseDigitsFrom(s, 0) == ParseDigitsFrom([], DigitValue(s[0]));
    } else {
      ParseNatToString(n / 10);
      ParseSnoc(NatToString(n / 10), DigitChar(n % 10), 0);
    }
  }

  lemma NatToStringInjective(a: nat, b: nat)
    ensures NatToString(a) == NatToString(b) <==> a == b
  {
    if NatToString(a) == NatToString(b) {
      ParseNatToString(a);
      ParseNatToString(b);
    }
  }

  /** `n.toString().padStart(2, '0')`. */
  function Pad2(n: nat): (s: string)
    ensures AllDigits(s)
    ensures n < 100 ==> |s| == 2
    ensures n >= 10 ==> s == NatToString(n)
  {
    if n < 10 then "0" + NatToString(n) else NatToString(n)
  }

  lemma ParsePad2(n: nat)
    ensures ParseDigits(Pad2(n)) == n
  {
    ParseNatToString(n);
    if n < 10 {
      var s := Pad2(n);
      assert s[1..] == NatToString(n);
    }
  }

  lemma Pad2Injective(a: nat, b: nat)
    ensures Pad2(a) == Pad2(b) <==> a == b
  {
    if Pad2(a) == Pad2(b) {
      ParsePad2(a);
      ParsePad2(b);
    }
  }

  /** ASCII `toLowerCase` of one character. */
  function LowerChar(c: char): char {
    if 'A' <= c <= 'Z' then (c as int + 32) as char else c
  }

  function ToLower(s: string): (r: string)
    ensures |r| == |s|
    ensures forall i :: 0 <= i < |s| ==> r[i] == LowerChar(s[i])
  {
    if s == [] then [] else [LowerChar(s[0])] + ToLower(s[1..])
  }

  /** w occurs in s starting at position i. */
  predicate OccursAt(s: string, w: string, i: int) {
    0 <= i && i + |w| <= |s| && s[i..i + |w|] == w
  }

  /** `s.includes(w)`: w occurs as a contiguous piece of s. */
  ghost predicate Contains(s: string, w: string) {
    exists i :: OccursAt(s, w, i)
  }

  /** Search for w in s, one start position at a time. */
  function IndexOf(s: string, w: string, from: nat): (r: int)
    ensures r == -1 || (from <= r && OccursAt(s, w, r))
    ensures r == -1 <==> forall i :: from <= i ==> !OccursAt(s, w, i)
    decreases |s| + 1 - from
  {
    if from + |w| > |s| then -1
    else if s[from..from + |w|] == w then from
    else IndexOf(s, w, from + 1)
  }

  function Includes(s: string, w: string): (b: bool)
    ensures b <==> Contains(s, w)
  {
    IndexOf(s, w, 0) != -1
  }

  /** The characters `String.prototype.trim` removes: white space and line terminators. */
  predicate IsJsSpace(c: char) {
    c == ' ' || c == '\t' || c == '\n' || c == '\r' || c == '\U{000B}' || c == '\U{000C}'
    || c == '\U{00A0}' || c == '\U{1680}' || ('\U{2000}' <= c <= '\U{200A}')
    || c == '\U{2028}' || c == '\U{2029}' || c == '\U{202F}' || c == '\U{205F}'
    || c == '\U{3000}' || c == '\U{FEFF}'
  }

  function TrimStart(s: string): (r: string)
    ensures |r| <= |s| && r == s[|s| - |r|..]
    ensures r == [] || !IsJsSpace(r[0])
    ensures forall i :: 0 <= i < |s| - |r| ==> IsJsSpace(s[i])
  {
    if s != [] && IsJsSpace(s[0]) then TrimStart(s[1..]) else s
  }

  function TrimEnd(s: string): (r: string)
    ensures |r| <= |s| && r == s[..|r|]
    ensures r == [] || !IsJsSpace(r[|r| - 1])
    ensures forall i :: |r| <= i < |s| ==> IsJsSpace(s[i])
  {
    if s != [] && IsJsSpace(s[|s| - 1]) then TrimEnd(s[..|s| - 1]) else s
  }

  /** `s.trim()`. */
  function Trim(s: string): string {
    TrimEnd(TrimStart(s))
  }

  /** `s.trim()` is empty exactly when s holds nothing but white space. */
  lemma TrimEmpty(s: string)
    ensures Trim(s) == [] <==> forall i :: 0 <= i < |s| ==> IsJsSpace(s[i])
  {
    var t := TrimStart(s);
    if Trim(s) == [] {
      forall i | 0 <= i < |s| ensures IsJsSpace(s[i]) {
        if i >= |s| - |t| {
          assert s[i] == t[i - (|s| - |t|)];
        }
      }
    } else {
      var r := Trim(s);
      assert r == t[..|r|];
      assert !IsJsSpace(t[0]);
      assert s[|s| - |t|] == t[0];
    }
  }

  /** Trimming trimmed text changes nothing. */
  lemma TrimIdempotent(s: string)
    ensures Trim(Trim(s)) == Trim(s)
  {
    var t := Trim(s);
    if t != [] {
      var u := TrimStart(s);
      assert t == u[..|t|];
      assert t[0] == u[0];
      assert TrimStart(t) == t;
    }
  }

  /**
   * Reads s as decimal numbers separated by single `sep` characters, `cur` being
   * the number whose digits are being read; None when s is not of that form.
   */
  function ReadNumbers(s: string, sep: char, cur: Option<nat>): Option<seq<nat>>
    decreases |s|
  {
    if s == [] then
      if cur.Some? then Some([cur.value]) else None
    else if IsDigit(s[0]) then
      ReadNumbers(s[1..], sep, Some(cur.GetOr(0) * 10 + DigitValue(s[0])))
    else if s[0] == sep && cur.Some? then
      match ReadNumbers(s[1..], sep, None)
      case Some(ns) => Some([cur.value] + ns)
      case None => None
    else None
  }

  /** Reading a run of digits adds them to the number being read. */
  lemma {:induction false} ReadDigitRun(d: string, rest: string, sep: char, cur: Option<nat>)
    requires AllDigits(d) && |d| >= 1
    ensures ReadNumbers(d + rest, sep, cur) == ReadNumbers(rest, sep, Some(ParseDigitsFrom(d, cur.GetOr(0))))
    decreases |d|
  {
    var s := d + rest;
    assert s[0] == d[0];
    assert s[1..] == d[1..] + rest;
    var next := cur.GetOr(0) * 10 + DigitValue(d[0]);
    if |d| > 1 {
      ReadDigitRun(d[1..], rest, sep, Some(next));
    }
  }

  /** A run of digits followed by a separator and more text. */
  lemma DigitsThen(d: string, rest: string, sep: char)
    requires AllDigits(d) && |d| >= 1 && !IsDigit(sep)
    ensures ReadNumbers(d + [sep] + rest, sep, None)
         == match ReadNumbers(rest, sep, None) case Some(ns) => Some([ParseDigits(d)] + ns) case None => None
  {
    assert d + [sep] + rest == d + ([sep] + rest);
    ReadDigitRun(d, [sep] + rest, sep, None);
    assert ([sep] + rest)[1..] == rest;
  }

  /** A run of digits on its own. */
  lemma DigitsLast(d: string, sep: char)
    requires AllDigits(d) && |d| >= 1
    ensures ReadNumbers(d, sep, None) == Some([ParseDigits(d)])
  {
    assert d == d + [];
    ReadDigitRun(d, [], sep, None);
  }

  /** `s.split(sep)` for a one-character separator: the pieces between separators, at least one. */
  function Split(s: string, sep: char): (r: seq<string>)
    ensures |r| >= 1
  {
    if s == [] then [[]]
    else
      var rest := Split(s[1..], sep);
      if s[0] == sep then [[]] + rest else [[s[0]] + rest[0]] + rest[1..]
  }

  /** Text without the separator joins the first piece of what follows it. */
  lemma {:induction false} SplitPrefix(a: string, b: string, sep: char)
    requires sep !in a
    ensures Split(a + b, sep) == [a + Split(b, sep)[0]] + Split(b, sep)[1..]
    decreases |a|
  {
    if a == [] {
      var pieces := Split(b, sep);
      assert a + b == b && a + pieces[0] == pieces[0];
      assert pieces == [pieces[0]] + pieces[1..];
    } else {
      SplitPrefix(a[1..], b, sep);
      var pieces, rest := Split(b, sep), Split(a[1..] + b, sep);
      assert a[0] in a;
      assert (a + b)[0] == a[0] && (a + b)[1..] == a[1..] + b;
      assert Split(a + b, sep) == [[a[0]] + rest[0]] + rest[1..];
      assert [a[0]] + (a[1..] + pieces[0]) == a + pieces[0];
    }
  }

  /** A piece followed by the separator is split off whole. */
  lemma SplitAt(a: string, b: string, sep: char)
    requires sep !in a
    ensures Split(a + [sep] + b, sep) == [a] + Split(b, sep)
  {
    SplitPrefix(a, [sep] + b, sep);
    assert a + [sep] + b == a + ([sep] + b);
    assert ([sep] + b)[1..] == b;
    assert Split([sep] + b, sep) == [[]] + Split(b, sep);
    assert a + [] == a;
  }

  /** Text without the separator is one piece. */
  lemma SplitNone(a: string, sep: char)
    requires sep !in a
    ensures Split(a, sep) == [a]
  {
    SplitPrefix(a, [], sep);
    assert a + [] == a;
  }

  /** Digits contain no separator that is not a digit. */
  lemma DigitsWithout(d: string, sep: char)
    requires AllDigits(d) && !IsDigit(sep)
    ensures sep !in d
  {
  }
}
