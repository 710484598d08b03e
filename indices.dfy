/** The list of every coordinate of a terrain, built row by row and then
    shuffled; the shuffle is an injected permutation. */
module Indices {
  import opened Basics

  /** `perm` rearranges the indices 0 .. n-1: it has n entries, all below n,
      no two equal. */
  predicate IsPermutation(perm: seq<nat>, n: int) {
    |perm| == n && (forall k :: 0 <= k < |perm| ==> perm[k] < n) && Distinct(perm)
  }

  /** Every entry of `perms` rearranges the indices 0 .. n-1. */
  predicate ArePermutations(perms: seq<seq<nat>>, n: int) {
    forall k :: 0 <= k < |perms| ==> IsPermutation(perms[k], n)
  }

  /** The first `w` coordinates of row `i`, left to right. */
  function Row(i: int, w: nat): (r: seq<Coord>)
    ensures |r| == w
    ensures forall j :: 0 <= j < w ==> r[j] == (i, j)
  {
    seq(w, j requires 0 <= j < w => (i, j))
  }

  /** The coordinates of `h` rows of `w` cells, row by row: the order in
      which the nested loops append them. */
  function RowMajor(h: nat, w: nat): (r: seq<Coord>)
    ensures |r| == Area(h, w)
    ensures forall k :: 0 <= k < |r| ==> InGrid(r[k], h, w)
  {
    if h == 0 then [] else RowMajor(h - 1, w) + Row(h - 1, w)
  }

  /** Rows i .. h-1 of an h x w terrain, row by row: the cells the nested
      loops have yet to visit when they reach the start of row i. */
  function RowsFrom(i: nat, h: nat, w: nat): (r: seq<Coord>)
    ensures forall k :: 0 <= k < |r| ==> InGrid(r[k], h, w)
    decreases h - i
  {
    if i >= h then [] else Row(i, w) + RowsFrom(i + 1, h, w)
  }

  /** The rows before `i` followed by the rows from `i` on make up the whole
      row-major list. */
  lemma {:induction false} RowMajorSplit(i: nat, h: nat, w: nat)
    requires i <= h
    ensures RowMajor(i, w) + RowsFrom(i, h, w) == RowMajor(h, w)
    decreases h - i
  {
    if i < h {
      RowMajorSplit(i + 1, h, w);
      assert RowMajor(i, w) + (Row(i, w) + RowsFrom(i + 1, h, w)) == (RowMajor(i, w) + Row(i, w)) + RowsFrom(i + 1, h, w);
    } else {
      assert RowMajor(i, w) + [] == RowMajor(i, w);
    }
  }

  /** `s` reordered by `perm`: entry k of the result is entry perm[k] of `s`. */
  function Permute<T>(s: seq<T>, perm: seq<nat>): (r: seq<T>)
    requires forall k :: 0 <= k < |perm| ==> perm[k] < |s|
    ensures |r| == |perm|
    ensures forall k :: 0 <= k < |perm| ==> r[k] == s[perm[k]]
  {
    seq(|perm|, k requires 0 <= k < |perm| => s[perm[k]])
  }

  /** The row-major list holds h * w coordinates, each exactly once, and they
      are exactly the coordinates of the terrain. */
  lemma {:induction false} RowMajorCoords(h: nat, w: nat)
    ensures forall c :: c in RowMajor(h, w) <==> InGrid(c, h, w)
    ensures Distinct(RowMajor(h, w))
  {
    if h > 0 {
      RowMajorCoords(h - 1, w);
      var front, last := RowMajor(h - 1, w), Row(h - 1, w);
      assert RowMajor(h, w) == front + last;
      forall c
        ensures c in front + last <==> InGrid(c, h, w)
      {
        if InGrid(c, h, w) && c.0 == h - 1 {
          assert last[c.1] == c;
        }
      }
      forall a, b | 0 <= a < b < |front + last|
        ensures (front + last)[a] != (front + last)[b]
      {
        if a < |front| && b >= |front| {
          assert (front + last)[a] in front;
        }
      }
    }
  }

  /** The elements of a sequence of naturals, as a set. */
  function Elements(s: seq<nat>): set<nat>
  {
    set x | x in s
  }

  /** The naturals below `n`. */
  function Below(n: nat): set<nat>
  {
    if n == 0 then {} else Below(n - 1) + {n - 1}
  }

  lemma {:induction false} BelowCard(n: nat)
    ensures |Below(n)| == n
    ensures forall x: nat :: x in Below(n) <==> x < n
  {
    if n > 0 {
      BelowCard(n - 1);
    }
  }

  /** A sequence without repetitions has as many elements as entries. */
  lemma {:induction false} DistinctCard(s: seq<nat>)
    requires Distinct(s)
    ensures |Elements(s)| == |s|
  {
    if s != [] {
      var front := s[..|s| - 1];
      assert Distinct(front);
      DistinctCard(front);
      assert Elements(s) == Elements(front) + {s[|s| - 1]};
      assert s[|s| - 1] !in Elements(front);
    }
  }

  /** Pigeonhole: a permutation of 0 .. n-1 contains every index below n. */
  lemma {:induction false} PermutationCovers(perm: seq<nat>, n: nat)
    requires IsPermutation(perm, n)
    ensures forall x :: 0 <= x < n ==> x in perm
  {
    var elems, all := Elements(perm), Below(n);
    DistinctCard(perm);
    BelowCard(n);
    assert elems <= all;
    assert all == elems + (all - elems);
    assert |all - elems| == 0;
    assert all == elems;
    forall x | 0 <= x < n
      ensures x in perm
    {
      assert x in all;
    }
  }

  /** Reordering by a permutation keeps the same entries, and keeps them
      distinct. */
  lemma {:induction false} PermuteKeeps<T>(s: seq<T>, perm: seq<nat>)
    requires IsPermutation(perm, |s|)
    ensures forall y :: y in Permute(s, perm) <==> y in s
    ensures Distinct(s) ==> Distinct(Permute(s, perm))
  {
    var r := Permute(s, perm);
    PermutationCovers(perm, |s|);
    forall y | y in s
      ensures y in r
    {
      var x :| 0 <= x < |s| && s[x] == y;
      assert x in perm;
      var k :| 0 <= k < |perm| && perm[k] == x;
      assert r[k] == y;
    }
  }

  /** Shuffling the row-major list by a permutation of its positions again
      lists every coordinate of the terrain exactly once. */
  lemma {:induction false} ShuffledCoords(h: nat, w: nat, perm: seq<nat>)
    requires IsPermutation(perm, Area(h, w))
    ensures |Permute(RowMajor(h, w), perm)| == Area(h, w)
    ensures forall c :: c in Permute(RowMajor(h, w), perm) <==> InGrid(c, h, w)
    ensures Distinct(Permute(RowMajor(h, w), perm))
  {
    RowMajorCoords(h, w);
    PermuteKeeps(RowMajor(h, w), perm);
  }

  /** The nested loops that append every coordinate of an h x w terrain row
      by row, followed by the shuffle `perm`. */
  method ShuffledIndices(h: nat, w: nat, perm: seq<nat>) returns (indices: seq<Coord>)
    requires IsPermutation(perm, Area(h, w))
    ensures indices == Permute(RowMajor(h, w), perm)
  {
    indices := [];
    for i := 0 to h
      invariant indices == RowMajor(i, w)
    {
      for j := 0 to w
        invariant indices == RowMajor(i, w) + Row(i, j)
      {
        assert Row(i, j + 1) == Row(i, j) + [(i, j)];
        indices := indices + [(i, j)];
      }
    }
    RowMajorCoords(h, w);
    indices := Permute(indices, perm);
  }
}
