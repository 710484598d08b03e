/** Neighbour lookup with the explicit corner, edge and interior cases. */
module Neighbours {
  import opened Basics

  /** `d` is a different cell at most one row and one column away from `c`. */
  predicate Adjacent(c: Coord, d: Coord) {
    d != c && -1 <= d.0 - c.0 <= 1 && -1 <= d.1 - c.1 <= 1
  }

  /** How many neighbours a cell has on a bounded grid of at least 2 x 2:
      3 in a corner, 5 on an edge, 8 inside. */
  function ExpectedCount(h: int, w: int, i: int, j: int): nat {
    var onRowEdge := i == 0 || i == h - 1;
    var onColumnEdge := j == 0 || j == w - 1;
    if onRowEdge && onColumnEdge then 3
    else if onRowEdge || onColumnEdge then 5
    else 8
  }

  /** The cells whose values the lookup reads for cell (i, j) of a terrain with
      `h` rows whose row `i` has `w` cells, in the order the lookup lists them.
      No index is ever negative; with a single row or column some index runs
      past the end. */
  function NeighborCoords(h: int, w: int, i: int, j: int): (r: seq<Coord>)
    requires 0 <= i < h && 0 <= j < w
    ensures forall k :: 0 <= k < |r| ==> 0 <= r[k].0 && 0 <= r[k].1 && Adjacent((i, j), r[k])
    ensures Distinct(r)
    ensures h >= 2 && w >= 2 ==> |r| == ExpectedCount(h, w, i, j)
    ensures h >= 2 && w >= 2 ==> forall k :: 0 <= k < |r| ==> InGrid(r[k], h, w)
    ensures h >= 2 && w >= 2 ==> forall d :: InGrid(d, h, w) && Adjacent((i, j), d) ==> d in r
    ensures h == 1 || w == 1 ==> |r| >= 2 && (!InGrid(r[0], h, w) || !InGrid(r[1], h, w))
  {
    if i == 0 then
      if j == 0 then
        [(i, j + 1), (i + 1, j + 1), (i + 1, j)]                   // right, bottom-right, bottom
      else if j == w - 1 then
        [(i, j - 1), (i + 1, j - 1), (i + 1, j)]                   // left, bottom-left, bottom
      else
        [(i, j - 1), (i + 1, j - 1), (i + 1, j), (i + 1, j + 1), (i, j + 1)]
    else if i == h - 1 then
      if j == 0 then
        [(i, j + 1), (i - 1, j + 1), (i - 1, j)]                   // right, top-right, top
      else if j == w - 1 then
        [(i, j - 1), (i - 1, j - 1), (i - 1, j)]                   // left, top-left, top
      else
        [(i, j - 1), (i - 1, j - 1), (i - 1, j), (i - 1, j + 1), (i, j + 1)]
    else if j == 0 then
      [(i - 1, j), (i - 1, j + 1), (i, j + 1), (i + 1, j + 1), (i + 1, j)]
    else if j == w - 1 then
      [(i - 1, j), (i - 1, j - 1), (i, j - 1), (i + 1, j - 1), (i + 1, j)]
    else
      [(i, j - 1), (i + 1, j - 1), (i + 1, j), (i + 1, j + 1),
       (i, j + 1), (i - 1, j + 1), (i - 1, j), (i - 1, j - 1)]
  }

  /** The values of the neighbours of cell (i, j), read from the terrain as it
      is now; IndexError when a listed cell lies past the end of its row or
      column. */
  function NeighborValues<V>(g: Grid<V>, i: int, j: int): (r: Result<seq<V>>)
    requires 0 <= i < |g| && 0 <= j < |g[i]|
    ensures Rect(g, |g|, |g[i]|) && |g| >= 2 && |g[i]| >= 2 ==>
              r.Ok? && |r.value| == ExpectedCount(|g|, |g[i]|, i, j)
    ensures Rect(g, |g|, |g[i]|) && (|g| == 1 || |g[i]| == 1) ==> r == Err(IndexError)
    ensures r.Ok? ==> var cs := NeighborCoords(|g|, |g[i]|, i, j);
              |r.value| == |cs| &&
              forall k :: 0 <= k < |cs| ==> cs[k].0 < |g| && cs[k].1 < |g[cs[k].0]| && r.value[k] == g[cs[k].0][cs[k].1]
  {
    var cs := NeighborCoords(|g|, |g[i]|, i, j);
    if forall k :: 0 <= k < |cs| ==> cs[k].0 < |g| && cs[k].1 < |g[cs[k].0]| then
      Ok(seq(|cs|, k requires 0 <= k < |cs| => g[cs[k].0][cs[k].1]))
    else
      Err(IndexError)
  }

  /** On a finished terrain every neighbour value is a key of the table. */
  lemma {:induction false} NeighborsInAlphabet<V>(g: Grid<V>, h: int, w: int, values: seq<Entry<V>>, i: int, j: int)
    requires IsTerrain(g, h, w, values) && 0 <= i < h && 0 <= j < w
    ensures NeighborValues(g, i, j).Ok? ==>
              forall n :: n in NeighborValues(g, i, j).value ==> n in KeysOf(values)
  {
    var r := NeighborValues(g, i, j);
    if r.Ok? {
      forall n | n in r.value
        ensures n in KeysOf(values)
      {
        var k :| 0 <= k < |r.value| && r.value[k] == n;
      }
    }
  }

  /** The top-left corner of a 3 x 3 terrain has the right, bottom-right and
      bottom cells as neighbours, in that order. */
  lemma {:induction false} CornerNeighbors<V>(g: Grid<V>)
    requires Rect(g, 3, 3)
    ensures NeighborValues(g, 0, 0) == Ok([g[0][1], g[1][1], g[1][0]])
  {
    var cs := NeighborCoords(3, 3, 0, 0);
    assert cs == [(0, 1), (1, 1), (1, 0)];
    var nb := NeighborValues(g, 0, 0).value;
    assert |nb| == 3 && nb[0] == g[0][1] && nb[1] == g[1][1] && nb[2] == g[1][0];
    assert nb == [g[0][1], g[1][1], g[1][0]];
  }

  /** The centre of a 5 x 5 terrain has all eight surrounding cells as
      neighbours, starting on the left and going round anticlockwise. */
  lemma {:induction false} InteriorNeighbors<V>(g: Grid<V>)
    requires Rect(g, 5, 5)
    ensures NeighborValues(g, 2, 2) ==
              Ok([g[2][1], g[3][1], g[3][2], g[3][3], g[2][3], g[1][3], g[1][2], g[1][1]])
  {
    var cs := NeighborCoords(5, 5, 2, 2);
    assert cs == [(2, 1), (3, 1), (3, 2), (3, 3), (2, 3), (1, 3), (1, 2), (1, 1)];
    var nb := NeighborValues(g, 2, 2).value;
    assert |nb| == 8;
    assert nb[0] == g[2][1] && nb[1] == g[3][1] && nb[2] == g[3][2] && nb[3] == g[3][3];
    assert nb[4] == g[2][3] && nb[5] == g[1][3] && nb[6] == g[1][2] && nb[7] == g[1][1];
    assert nb == [g[2][1], g[3][1], g[3][2], g[3][3], g[2][3], g[1][3], g[1][2], g[1][1]];
  }
}
