/** Concatenation of a sequence of blocks, as `selected.push(...block)` builds it. */
module Seqs {

  /** The blocks of `ps` one after another. */
  function Flatten<T>(ps: seq<seq<T>>): (r: seq<T>)
    ensures ps == [] ==> r == []
    decreases |ps|
  {
    if ps == [] then [] else Flatten(ps[..|ps| - 1]) + ps[|ps| - 1]
  }

  lemma FlattenSnoc<T>(ps: seq<seq<T>>, k: nat)
    requires k < |ps|
    ensures Flatten(ps[..k + 1]) == Flatten(ps[..k]) + ps[k]
  {
    assert ps[..k + 1][..k] == ps[..k];
  }

  /** Three blocks pushed after the first `k`. */
  lemma FlattenThree<T>(ps: seq<seq<T>>, k: nat)
    requires k + 3 <= |ps|
    ensures Flatten(ps[..k + 3]) == Flatten(ps[..k]) + (ps[k] + ps[k + 1] + ps[k + 2])
  {
    FlattenSnoc(ps, k);
    FlattenSnoc(ps, k + 1);
    FlattenSnoc(ps, k + 2);
  }

  /** Nine blocks flattened, grouped by threes. */
  lemma FlattenNine<T>(ps: seq<seq<T>>)
    requires |ps| == 9
    ensures Flatten(ps) == [] + (ps[0] + ps[1] + ps[2]) + (ps[3] + ps[4] + ps[5]) + (ps[6] + ps[7] + ps[8])
  {
    assert ps[..0] == [];
    FlattenThree(ps, 0);
    FlattenThree(ps, 3);
    FlattenThree(ps, 6);
    assert ps[..9] == ps;
  }

  /** Twelve blocks flattened, grouped by threes. */
  lemma FlattenTwelve<T>(ps: seq<seq<T>>)
    requires |ps| == 12
    ensures Flatten(ps) == [] + (ps[0] + ps[1] + ps[2]) + (ps[3] + ps[4] + ps[5]) + (ps[6] + ps[7] + ps[8])
      + (ps[9] + ps[10] + ps[11])
  {
    assert ps[..0] == [];
    FlattenThree(ps, 0);
    FlattenThree(ps, 3);
    FlattenThree(ps, 6);
    FlattenThree(ps, 9);
    assert ps[..12] == ps;
  }

  /** Nine blocks flattened, one after another. */
  lemma FlattenNineInOrder<T>(ps: seq<seq<T>>)
    requires |ps| == 9
    ensures Flatten(ps) == ps[0] + ps[1] + ps[2] + ps[3] + ps[4] + ps[5] + ps[6] + ps[7] + ps[8]
  {
    FlattenNine(ps);
    RegroupNine(ps[0], ps[1], ps[2], ps[3], ps[4], ps[5], ps[6], ps[7], ps[8]);
  }

  /** Concatenation regrouped from threes to a single chain. */
  lemma RegroupNine<T>(a: seq<T>, b: seq<T>, c: seq<T>, d: seq<T>, e: seq<T>, f: seq<T>, g: seq<T>, h: seq<T>, i: seq<T>)
    ensures [] + (a + b + c) + (d + e + f) + (g + h + i) == a + b + c + d + e + f + g + h + i
  {
  }

  lemma {:induction false} FlattenAppend<T>(ps: seq<seq<T>>, qs: seq<seq<T>>)
    ensures Flatten(ps + qs) == Flatten(ps) + Flatten(qs)
    decreases |qs|
  {
    if qs == [] {
      assert ps + qs == ps;
    } else {
      var q' := qs[..|qs| - 1];
      assert (ps + qs)[..|ps + qs| - 1] == ps + q';
      FlattenAppend(ps, q');
    }
  }

  /** Block `k` sits in the flattening right after the blocks before it. */
  lemma FlattenSlice<T>(ps: seq<seq<T>>, k: nat)
    requires k < |ps|
    ensures |Flatten(ps[..k])| + |ps[k]| <= |Flatten(ps)|
    ensures Flatten(ps)[|Flatten(ps[..k])|..|Flatten(ps[..k])| + |ps[k]|] == ps[k]
  {
    assert ps == ps[..k + 1] + ps[k + 1..];
    FlattenAppend(ps[..k + 1], ps[k + 1..]);
    FlattenSnoc(ps, k);
  }

  /** If `offs` accumulates the block lengths, it gives where every block starts. */
  lemma {:induction false} FlattenOffsets<T>(ps: seq<seq<T>>, offs: seq<nat>, k: nat)
    requires |offs| == |ps| + 1 && offs[0] == 0
    requires forall j :: 0 <= j < |ps| ==> offs[j + 1] == offs[j] + |ps[j]|
    requires k <= |ps|
    ensures |Flatten(ps[..k])| == offs[k]
  {
    if k > 0 {
      FlattenOffsets(ps, offs, k - 1);
      FlattenSnoc(ps, k - 1);
    }
  }

  /** Permuting every block permutes the flattening. */
  lemma {:induction false} FlattenPermutes<T>(ps: seq<seq<T>>, qs: seq<seq<T>>)
    requires |ps| == |qs|
    requires forall k :: 0 <= k < |ps| ==> multiset(ps[k]) == multiset(qs[k])
    ensures multiset(Flatten(ps)) == multiset(Flatten(qs))
    decreases |ps|
  {
    if ps != [] {
      var n := |ps| - 1;
      FlattenPermutes(ps[..n], qs[..n]);
    }
  }

  /** With `offs` accumulating the block lengths, block `k` is the slice between
      `offs[k]` and `offs[k + 1]`. */
  lemma BlockAt<T>(ps: seq<seq<T>>, offs: seq<nat>, k: nat)
    requires |offs| == |ps| + 1 && offs[0] == 0
    requires forall j :: 0 <= j < |ps| ==> offs[j + 1] == offs[j] + |ps[j]|
    requires k < |ps|
    ensures offs[k + 1] <= |Flatten(ps)|
    ensures Flatten(ps)[offs[k]..offs[k + 1]] == ps[k]
  {
    FlattenOffsets(ps, offs, k);
    FlattenSlice(ps, k);
  }

  /** With `offs` accumulating the block lengths, the flattening is `offs[|ps|]` long. */
  lemma FlattenLength<T>(ps: seq<seq<T>>, offs: seq<nat>)
    requires |offs| == |ps| + 1 && offs[0] == 0
    requires forall j :: 0 <= j < |ps| ==> offs[j + 1] == offs[j] + |ps[j]|
    ensures |Flatten(ps)| == offs[|ps|]
  {
    FlattenOffsets(ps, offs, |ps|);
    assert ps[..|ps|] == ps;
  }

  /** Taking part of every block keeps the flattening inside the flattening of the blocks. */
  lemma {:induction false} FlattenSub<T>(ps: seq<seq<T>>, qs: seq<seq<T>>)
    requires |ps| == |qs|
    requires forall k :: 0 <= k < |ps| ==> multiset(ps[k]) <= multiset(qs[k])
    ensures multiset(Flatten(ps)) <= multiset(Flatten(qs))
    decreases |ps|
  {
    if ps != [] {
      var n := |ps| - 1;
      FlattenSub(ps[..n], qs[..n]);
    }
  }

  /** No element occurs twice. */
  predicate Distinct<T(==)>(s: seq<T>) {
    forall i, j :: 0 <= i < j < |s| ==> s[i] != s[j]
  }

  /** A sequence whose elements are drawn without repetition from a sequence
      without repetition has no repetition either. */
  lemma DistinctSub<T>(s: seq<T>, b: seq<T>)
    requires Distinct(b) && multiset(s) <= multiset(b)
    ensures Distinct(s)
  {
    forall i, j | 0 <= i < j < |s| ensures s[i] != s[j] {
      if s[i] == s[j] {
        TwiceCounted(s, i, j);
        DistinctCount(b, s[i]);
        assert false;
      }
    }
  }

  lemma TwiceCounted<T>(s: seq<T>, i: nat, j: nat)
    requires i < j < |s| && s[i] == s[j]
    ensures multiset(s)[s[i]] >= 2
  {
    assert s == s[..j] + s[j..];
    assert s[i] in s[..j];
    assert s[j] in s[j..];
    assert multiset(s) == multiset(s[..j]) + multiset(s[j..]);
  }

  /** In a sequence without repetition every element is counted at most once. */
  lemma {:induction false} DistinctCount<T>(b: seq<T>, x: T)
    requires Distinct(b)
    ensures multiset(b)[x] <= 1
    decreases |b|
  {
    if b != [] {
      var n := |b| - 1;
      assert b == b[..n] + [b[n]];
      assert Distinct(b[..n]);
      DistinctCount(b[..n], x);
      if b[n] == x {
        assert x !in b[..n];
      }
    }
  }
}
