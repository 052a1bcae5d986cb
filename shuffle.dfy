/**
 * The shuffle `[...xs].sort(() => 0.5 - Math.random())` used by the question bank and
 * by imposter selection. Whatever the random comparator answers, `sort` returns a
 * rearrangement of its copy, so the shuffle is modelled as an arbitrary permutation
 * `perm` of the indices: position `i` of the result holds `xs[perm[i]]`. Every property
 * proved about a shuffle holds for every permutation, hence for every random outcome.
 */
module Shuffle {

  /** `perm` lists each index below `n` exactly once. */
  predicate IsPermutation(perm: seq<nat>, n: nat) {
    && |perm| == n
    && (forall i :: 0 <= i < n ==> perm[i] < n)
    && (forall i, j :: 0 <= i < j < n ==> perm[i] != perm[j])
  }

  /** No element occurs twice. */
  predicate NoDup<T(==)>(xs: seq<T>) {
    forall i, j :: 0 <= i < j < |xs| ==> xs[i] != xs[j]
  }

  /** Putting a new element in front keeps a list duplicate-free. */
  lemma NoDupCons<T>(x: T, xs: seq<T>)
    requires NoDup(xs) && x !in xs
    ensures NoDup([x] + xs)
  {
    var ys := [x] + xs;
    forall i, j | 0 <= i < j < |ys| ensures ys[i] != ys[j] {
      assert ys[j] == xs[j - 1];
      if i > 0 { assert ys[i] == xs[i - 1]; }
    }
  }

  /** The shuffled copy of `xs` that the permutation `perm` describes. */
  function Shuffled<T(==)>(xs: seq<T>, perm: seq<nat>): (r: seq<T>)
    requires IsPermutation(perm, |xs|)
    ensures |r| == |xs|
    ensures forall i :: 0 <= i < |r| ==> r[i] == xs[perm[i]]
    ensures forall x :: x in r ==> x in xs
    ensures NoDup(xs) ==> NoDup(r)
  {
    seq(|xs|, i requires 0 <= i < |xs| => xs[perm[i]])
  }

  /** The indices `0 .. n-1` in order. */
  function Identity(n: nat): (r: seq<nat>)
    ensures IsPermutation(r, n)
    ensures forall i :: 0 <= i < n ==> r[i] == i
  {
    seq(n, i requires 0 <= i < n => i)
  }

  /** `perm` with the entries at positions `i` and `j` exchanged. */
  function Swap(perm: seq<nat>, i: nat, j: nat): (r: seq<nat>)
    requires i < |perm| && j < |perm|
    ensures |r| == |perm|
    ensures r[i] == perm[j] && r[j] == perm[i]
    ensures forall k :: 0 <= k < |perm| && k != i && k != j ==> r[k] == perm[k]
  {
    perm[i := perm[j]][j := perm[i]]
  }

  lemma SwapIsPermutation(perm: seq<nat>, n: nat, i: nat, j: nat)
    requires IsPermutation(perm, n) && i < n && j < n
    ensures IsPermutation(Swap(perm, i, j), n)
  {
    var r := Swap(perm, i, j);
    forall a, b | 0 <= a < b < n
      ensures r[a] != r[b]
    {
      var a' := if a == i then j else if a == j then i else a;
      var b' := if b == i then j else if b == j then i else b;
      assert r[a] == perm[a'] && r[b] == perm[b'] && a' != b';
      if a' < b' { assert perm[a'] != perm[b']; } else { assert perm[b'] != perm[a']; }
    }
  }

  /** The number of distinct elements of a duplicate-free sequence is its length. */
  lemma {:induction false} NoDupCardinality<T>(xs: seq<T>)
    requires NoDup(xs)
    ensures |set x | x in xs| == |xs|
  {
    if xs != [] {
      var tail := xs[1..];
      assert NoDup(tail) by {
        forall i, j | 0 <= i < j < |tail| ensures tail[i] != tail[j] {
          assert tail[i] == xs[i + 1] && tail[j] == xs[j + 1];
        }
      }
      NoDupCardinality(tail);
      assert xs[0] !in tail by {
        forall k | 0 <= k < |tail| ensures tail[k] != xs[0] { assert tail[k] == xs[k + 1]; }
      }
      assert (set x | x in xs) == (set x | x in tail) + {xs[0]} by {
        assert xs == [xs[0]] + tail;
      }
    }
  }

  /** Pigeonhole: a permutation of the indices below `n` hits every one of them. */
  lemma PermutationIsOnto(perm: seq<nat>, n: nat)
    requires IsPermutation(perm, n)
    ensures forall k :: 0 <= k < n ==> k in perm
  {
    var hit: set<nat> := set x | x in perm;
    var all: set<nat> := set x | x in Identity(n);
    assert NoDup(perm) && NoDup(Identity(n));
    NoDupCardinality(perm);
    NoDupCardinality(Identity(n));
    assert hit <= all by {
      forall x | x in hit ensures x in all {
        var i :| 0 <= i < n && perm[i] == x;
        assert Identity(n)[x] == x;
      }
    }
    assert |hit| == n && |all| == n;
    assert |all - hit| == |all| - |hit| == 0;
    forall k | 0 <= k < n ensures k in perm {
      assert Identity(n)[k] == k;
      assert k in all;
    }
  }

  /** A shuffle loses no element: together with the membership clause of `Shuffled`,
      the shuffled copy holds exactly the elements of the original. */
  lemma ShuffledKeepsEveryElement<T>(xs: seq<T>, perm: seq<nat>)
    requires IsPermutation(perm, |xs|)
    ensures forall x :: x in xs ==> x in Shuffled(xs, perm)
  {
    PermutationIsOnto(perm, |xs|);
    var r := Shuffled(xs, perm);
    forall x | x in xs ensures x in r {
      var k :| 0 <= k < |xs| && xs[k] == x;
      assert k in perm;
      var i :| 0 <= i < |perm| && perm[i] == k;
      assert r[i] == x;
    }
  }
}
