/**
 * The non-secure id generator: `size` characters, each picked from an
 * alphabet at a position drawn from `Math.random`. The random draws are an
 * input, one number in [0, 1) per character.
 */
module Nanoid {
  import opened Wrappers

  /** The 62 letters and digits `nanoid` draws from. */
  const Charset: string := "ABCDEFGHIJKLMNOPQRSTUVWXYZabcdefghijklmnopqrstuvwxyz0123456789"

  /** The length used when no size is passed. */
  const DefaultSize: int := 21

  /** A value `Math.random` can return. */
  predicate IsDraw(r: real) {
    0.0 <= r < 1.0
  }

  /** `Math.floor(r * alphabet.length)`: a valid position whenever the alphabet is non-empty. */
  function Position(alphabet: string, r: real): (k: int)
    requires IsDraw(r)
    ensures |alphabet| > 0 ==> 0 <= k < |alphabet|
    ensures |alphabet| == 0 ==> k == 0
  {
    var n := |alphabet| as real;
    assert n > 0.0 ==> r * n < n by {
      if n > 0.0 {
        assert (1.0 - r) * n > 0.0;
        assert r * n == n - (1.0 - r) * n;
      }
    }
    (r * n).Floor
  }

  /** `alphabet.charAt(k)`: the one-character string there, or "" outside the string. */
  function CharAt(alphabet: string, k: int): (c: string)
    ensures 0 <= k < |alphabet| ==> c == [alphabet[k]]
    ensures !(0 <= k < |alphabet|) ==> c == ""
  {
    if 0 <= k < |alphabet| then [alphabet[k]] else ""
  }

  /** The id the draws `ds` spell over `alphabet`, one draw per loop step. */
  function Spelled(alphabet: string, ds: seq<real>): string
    requires forall i :: 0 <= i < |ds| ==> IsDraw(ds[i])
  {
    if ds == [] then ""
    else Spelled(alphabet, ds[..|ds| - 1]) + CharAt(alphabet, Position(alphabet, ds[|ds| - 1]))
  }

  /** Over a non-empty alphabet every draw gives one character of the alphabet, in draw order. */
  lemma {:induction false} SpelledOverAlphabet(alphabet: string, ds: seq<real>)
    requires |alphabet| > 0
    requires forall i :: 0 <= i < |ds| ==> IsDraw(ds[i])
    ensures |Spelled(alphabet, ds)| == |ds|
    ensures forall i :: 0 <= i < |ds| ==> Spelled(alphabet, ds)[i] == alphabet[Position(alphabet, ds[i])]
    ensures forall c :: c in Spelled(alphabet, ds) ==> c in alphabet
  {
    if ds != [] {
      var front := ds[..|ds| - 1];
      SpelledOverAlphabet(alphabet, front);
      assert forall i :: 0 <= i < |front| ==> front[i] == ds[i];
    }
  }

  /** `charAt` on the empty alphabet is always "", so the id is empty however long it was asked to be. */
  lemma {:induction false} SpelledOverNothing(ds: seq<real>)
    requires forall i :: 0 <= i < |ds| ==> IsDraw(ds[i])
    ensures Spelled("", ds) == ""
  {
    if ds != [] {
      SpelledOverNothing(ds[..|ds| - 1]);
    }
  }

  /** The number of loop steps: `i < size` never holds for a size of 0 or less. */
  function Steps(size: int): (n: nat)
    ensures size >= 0 ==> n == size
    ensures size < 0 ==> n == 0
  {
    if size >= 0 then size else 0
  }

  /**
   * The generator `customAlphabet(alphabet, size)` returns, called once:
   * one character per step, the draws consumed in order.
   */
  method Generate(alphabet: string, size: int, draws: seq<real>) returns (id: string)
    requires Steps(size) <= |draws|
    requires forall i :: 0 <= i < |draws| ==> IsDraw(draws[i])
    ensures id == Spelled(alphabet, draws[..Steps(size)])
  {
    id := "";
    var i := 0;
    while i < size
      invariant 0 <= i <= Steps(size)
      invariant id == Spelled(alphabet, draws[..i])
    {
      assert draws[..i + 1][..i] == draws[..i];
      id := id + CharAt(alphabet, Position(alphabet, draws[i]));
      i := i + 1;
    }
  }

  /**
   * `customAlphabet(alphabet, size)` and one call of the generator it returns:
   * exactly `size` characters (21 when the size is left out), all from a
   * non-empty alphabet.
   */
  method CustomAlphabet(alphabet: string, size: Option<int>, draws: seq<real>) returns (id: string)
    requires Steps(size.GetOr(DefaultSize)) <= |draws|
    requires forall i :: 0 <= i < |draws| ==> IsDraw(draws[i])
    ensures |alphabet| > 0 ==> |id| == Steps(size.GetOr(DefaultSize))
    ensures |alphabet| > 0 && size.None? ==> |id| == 21
    ensures |alphabet| > 0 ==> forall c :: c in id ==> c in alphabet
    ensures |alphabet| > 0 ==> forall i :: 0 <= i < |id| ==> id[i] == alphabet[Position(alphabet, draws[i])]
    ensures |alphabet| == 0 ==> id == ""
  {
    var n := size.GetOr(DefaultSize);
    id := Generate(alphabet, n, draws);
    var used := draws[..Steps(n)];
    if |alphabet| > 0 {
      SpelledOverAlphabet(alphabet, used);
    } else {
      SpelledOverNothing(used);
    }
  }

  /** `nanoid(size)`: `size` letters and digits, 21 when the size is left out. */
  method NewId(size: Option<int>, draws: seq<real>) returns (id: string)
    requires Steps(size.GetOr(DefaultSize)) <= |draws|
    requires forall i :: 0 <= i < |draws| ==> IsDraw(draws[i])
    ensures |id| == Steps(size.GetOr(DefaultSize))
    ensures size.None? ==> |id| == 21
    ensures forall c :: c in id ==> c in Charset
  {
    id := CustomAlphabet(Charset, size, draws);
  }
}
