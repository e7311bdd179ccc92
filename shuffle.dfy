/** The Fisher–Yates shuffle both question banks use, with `Math.random()` as an input. */
module Shuffle {

  /** Every draw is a value `Math.random()` can return: a real in [0, 1). */
  predicate UnitDraws(rs: seq<real>) {
    forall k :: 0 <= k < |rs| ==> 0.0 <= rs[k] < 1.0
  }

  /** `Math.floor(r * (i + 1))`: the swap partner of position `i`. */
  function Pick(r: real, i: nat): (j: nat)
    requires 0.0 <= r < 1.0
    ensures j <= i
  {
    PickBounds(r, i);
    (r * (i + 1) as real).Floor
  }

  lemma PickBounds(r: real, i: nat)
    requires 0.0 <= r < 1.0
    ensures 0 <= (r * (i + 1) as real).Floor <= i
  {
    var n := (i + 1) as real;
    ProductBounds(r, n);
    var f := (r * n).Floor;
    assert f as real <= r * n && r * n < f as real + 1.0;
    assert f as real < n;
    assert f < i + 1;
    assert -1.0 < f as real;
  }

  /** A fraction in [0, 1) of a positive amount lies in [0, amount). */
  lemma ProductBounds(r: real, n: real)
    requires 0.0 <= r < 1.0 && n > 0.0
    ensures 0.0 <= r * n < n
  {
    assert n - r * n == (1.0 - r) * n;
    assert (1.0 - r) * n > 0.0;
  }

  /** `[s[i], s[j]] = [s[j], s[i]]` on a value. */
  function Swap<T>(s: seq<T>, i: nat, j: nat): (r: seq<T>)
    requires i < |s| && j < |s|
    ensures |r| == |s| && r[i] == s[j] && r[j] == s[i]
    ensures forall k :: 0 <= k < |s| && k != i && k != j ==> r[k] == s[k]
  {
    s[i := s[j]][j := s[i]]
  }

  /** The shuffle as a value: the swaps made for positions `i`, `i - 1`, ..., 1,
      in that order, position `k` swapped with `Pick(rs[k], k)`. */
  function FisherYates<T>(s: seq<T>, rs: seq<real>, i: int): (r: seq<T>)
    requires i < |s| && |rs| == |s| && UnitDraws(rs)
    ensures |r| == |s|
    decreases i
  {
    if i <= 0 then s
    else FisherYates(Swap(s, i, Pick(rs[i], i)), rs, i - 1)
  }

  /** A swap keeps the multiset of elements. */
  lemma SwapPermutes<T>(s: seq<T>, i: nat, j: nat)
    requires i < |s| && j < |s|
    ensures multiset(Swap(s, i, j)) == multiset(s)
  {
  }

  /** The shuffle is a permutation of its input, of the same length. */
  lemma {:induction false} FisherYatesPermutes<T>(s: seq<T>, rs: seq<real>, i: int)
    requires i < |s| && |rs| == |s| && UnitDraws(rs)
    ensures |FisherYates(s, rs, i)| == |s|
    ensures multiset(FisherYates(s, rs, i)) == multiset(s)
    decreases i
  {
    if i > 0 {
      var t := Swap(s, i, Pick(rs[i], i));
      SwapPermutes(s, i, Pick(rs[i], i));
      FisherYatesPermutes(t, rs, i - 1);
    }
  }

  /** `shuffleArray`: copies `s` into a fresh array and walks `i` from the last
      position down to 1, swapping position `i` with `Pick(rs[i], i)`. `rs[i]` is
      the draw made when position `i` is processed (`rs[0]` is never drawn). */
  method ShuffleArray<T>(s: seq<T>, rs: seq<real>) returns (r: seq<T>)
    requires |rs| == |s| && UnitDraws(rs)
    ensures r == FisherYates(s, rs, |s| - 1)
    ensures |r| == |s|
    ensures multiset(r) == multiset(s)
  {
    var a := new T[|s|](k requires 0 <= k < |s| => s[k]);
    assert a[..] == s;
    var i: int := |s| - 1;
    while i > 0
      invariant -1 <= i < |s|
      invariant a.Length == |s|
      invariant FisherYates(a[..], rs, i) == FisherYates(s, rs, |s| - 1)
    {
      var j := Pick(rs[i], i);
      ghost var before := a[..];
      var t := a[i];
      a[i] := a[j];
      a[j] := t;
      assert a[..] == Swap(before, i, j);
      i := i - 1;
    }
    r := a[..];
    FisherYatesPermutes(s, rs, |s| - 1);
  }

  /** A permutation has the same elements. */
  lemma PermutationMembers<T>(a: seq<T>, b: seq<T>, x: T)
    requires multiset(a) == multiset(b)
    ensures x in a <==> x in b
  {
    assert x in a <==> x in multiset(a);
    assert x in b <==> x in multiset(b);
  }
}
