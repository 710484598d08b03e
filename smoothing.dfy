/** Smoothing as a value-level fold: the cells are visited in a given order,
    and each visit reads the neighbours from the terrain as the earlier visits
    left it, then overwrites the visited cell with their plurality value. */
module Smoothing {
  import opened Basics
  import opened Neighbours
  import opened Majority
  import opened Indices

  /** `g` with cell `c` replaced by `v`. */
  function Store<V>(g: Grid<V>, c: Coord, v: V): (r: Grid<V>)
    requires 0 <= c.0 < |g| && 0 <= c.1 < |g[c.0]|
    ensures |r| == |g| && forall i :: 0 <= i < |g| ==> |r[i]| == |g[i]|
    ensures r[c.0][c.1] == v
    ensures forall i, j :: 0 <= i < |g| && 0 <= j < |g[i]| && (i, j) != c ==> r[i][j] == g[i][j]
  {
    g[c.0 := g[c.0][c.1 := v]]
  }

  /** One visit of cell `c`: collect its neighbours, let them vote, store the
      winner. Yields the new terrain and the next unused draw. */
  function SmoothCell<V(==)>(g: Grid<V>, c: Coord, values: Table<V>, rnd: Draws, pos: nat): (r: Result<(Grid<V>, nat)>)
    requires 0 <= c.0 < |g| && 0 <= c.1 < |g[c.0]|
    ensures r.Ok? ==> |r.value.0| == |g| && forall i :: 0 <= i < |g| ==> |r.value.0[i]| == |g[i]|
    ensures r.Ok? ==> forall i, j :: 0 <= i < |g| && 0 <= j < |g[i]| && (i, j) != c ==> r.value.0[i][j] == g[i][j]
    ensures r.Ok? ==> NeighborValues(g, c.0, c.1).Ok? && r.value.0[c.0][c.1] in KeysOf(values)
    ensures r.Ok? ==> forall x :: x in KeysOf(values) ==>
              Count(NeighborValues(g, c.0, c.1).value, x) <= Count(NeighborValues(g, c.0, c.1).value, r.value.0[c.0][c.1])
    ensures r.Ok? ==> pos < r.value.1 <= pos + |values|
  {
    match NeighborValues(g, c.0, c.1)
    case Err(e) => Err(e)
    case Ok(nb) =>
      match Determine(nb, values, rnd, pos)
      case Err(e) => Err(e)
      case Ok(vote) => Ok((Store(g, c, vote.0), vote.1))
  }

  /** Every coordinate of `order` lies on an h x w terrain. */
  predicate AllInGrid(order: seq<Coord>, h: int, w: int) {
    forall k :: 0 <= k < |order| ==> InGrid(order[k], h, w)
  }

  /** Visits the cells of `order` front to back; the first exception ends the
      pass. Yields the terrain after the last visit and the next unused draw. */
  function SmoothAlong<V(==)>(g: Grid<V>, h: nat, w: nat, order: seq<Coord>, values: Table<V>, rnd: Draws, pos: nat)
    : (r: Result<(Grid<V>, nat)>)
    requires Rect(g, h, w) && AllInGrid(order, h, w)
    ensures r.Ok? ==> Rect(r.value.0, h, w) && pos <= r.value.1
    ensures r.Ok? ==> forall i, j :: 0 <= i < h && 0 <= j < w && (i, j) !in order ==> r.value.0[i][j] == g[i][j]
    decreases |order|
  {
    if order == [] then Ok((g, pos))
    else
      match SmoothCell(g, order[0], values, rnd, pos)
      case Err(e) => Err(e)
      case Ok(step) =>
        assert forall i, j :: 0 <= i < h && 0 <= j < w && (i, j) !in order ==> (i, j) != order[0] && (i, j) !in order[1..];
        SmoothAlong(step.0, h, w, order[1..], values, rnd, step.1)
  }

  /** Smoothing along `a + b` is smoothing along `a`, then along `b` from where
      `a` stopped. */
  lemma {:induction false} SmoothAlongConcat<V>(g: Grid<V>, h: nat, w: nat, a: seq<Coord>, b: seq<Coord>,
                                                    values: Table<V>, rnd: Draws, pos: nat)
    requires Rect(g, h, w) && AllInGrid(a, h, w) && AllInGrid(b, h, w)
    ensures AllInGrid(a + b, h, w)
    ensures SmoothAlong(g, h, w, a + b, values, rnd, pos) ==
              match SmoothAlong(g, h, w, a, values, rnd, pos)
              case Err(e) => Err(e)
              case Ok(mid) => SmoothAlong(mid.0, h, w, b, values, rnd, mid.1)
    decreases |a|
  {
    if a != [] {
      assert (a + b)[1..] == a[1..] + b;
      match SmoothCell(g, a[0], values, rnd, pos)
      case Err(e) =>
      case Ok(step) =>
        SmoothAlongConcat(step.0, h, w, a[1..], b, values, rnd, step.1);
    } else {
      assert a + b == b;
    }
  }

  /** On a terrain of at least 2 x 2 whose cells are all keys, a visit cannot
      fail and stores a key again. */
  lemma {:induction false} SmoothCellKeepsTerrain<V>(g: Grid<V>, h: nat, w: nat, c: Coord, values: Table<V>,
                                                        rnd: Draws, pos: nat)
    requires IsTerrain(g, h, w, values) && h >= 2 && w >= 2 && InGrid(c, h, w) && |values| > 0
    ensures SmoothCell(g, c, values, rnd, pos).Ok?
    ensures IsTerrain(SmoothCell(g, c, values, rnd, pos).value.0, h, w, values)
  {
    NeighborsInAlphabet(g, h, w, values, c.0, c.1);
  }

  /** On a terrain of at least 2 x 2 whose cells are all keys, a pass along any
      order of its cells succeeds and leaves every cell a key. */
  lemma {:induction false} SmoothAlongKeepsTerrain<V>(g: Grid<V>, h: nat, w: nat, order: seq<Coord>,
                                                         values: Table<V>, rnd: Draws, pos: nat)
    requires IsTerrain(g, h, w, values) && h >= 2 && w >= 2 && AllInGrid(order, h, w) && |values| > 0
    ensures SmoothAlong(g, h, w, order, values, rnd, pos).Ok?
    ensures IsTerrain(SmoothAlong(g, h, w, order, values, rnd, pos).value.0, h, w, values)
    decreases |order|
  {
    if order != [] {
      SmoothCellKeepsTerrain(g, h, w, order[0], values, rnd, pos);
      var step := SmoothCell(g, order[0], values, rnd, pos).value;
      SmoothAlongKeepsTerrain(step.0, h, w, order[1..], values, rnd, step.1);
    }
  }

  /** With a single row or a single column, the first visit already looks
      past the edge: the pass raises IndexError. */
  lemma {:induction false} NarrowTerrainFails<V>(g: Grid<V>, h: nat, w: nat, order: seq<Coord>,
                                                    values: Table<V>, rnd: Draws, pos: nat)
    requires Rect(g, h, w) && AllInGrid(order, h, w) && order != [] && (h == 1 || w == 1)
    ensures SmoothAlong(g, h, w, order, values, rnd, pos) == Err(IndexError)
  {
    assert |g[order[0].0]| == w;
  }

  /** A terrain of at least 2 x 2 holding one key everywhere is left as it
      is: every cell's neighbours vote unanimously for that key. (With a
      single row or column the first visit raises IndexError instead, see
      `NarrowTerrainFails`.) */
  lemma {:induction false} UniformIsStable<V>(g: Grid<V>, h: nat, w: nat, order: seq<Coord>, values: Table<V>,
                                                 rnd: Draws, pos: nat, m: nat)
    requires Rect(g, h, w) && h >= 2 && w >= 2 && AllInGrid(order, h, w) && m < |values|
    requires forall i, j :: 0 <= i < h && 0 <= j < w ==> g[i][j] == values[m].key
    ensures SmoothAlong(g, h, w, order, values, rnd, pos).Ok?
    ensures SmoothAlong(g, h, w, order, values, rnd, pos).value.0 == g
    decreases |order|
  {
    if order != [] {
      var c := order[0];
      var nb := NeighborValues(g, c.0, c.1).value;
      assert forall k :: 0 <= k < |nb| ==> nb[k] == values[m].key;
      UnanimousVote(nb, values, rnd, pos, m);
      var step := SmoothCell(g, c, values, rnd, pos).value;
      assert step.0 == g by {
        forall i | 0 <= i < h
          ensures step.0[i] == g[i]
        {
        }
      }
      UniformIsStable(g, h, w, order[1..], values, rnd, step.1, m);
    }
  }

  /** Neighbours that all hold key `m` (at least one of them) elect it. */
  lemma {:induction false} UnanimousVote<V>(nb: seq<V>, values: Table<V>, rnd: Draws, pos: nat, m: nat)
    requires m < |values| && |nb| > 0
    requires forall k :: 0 <= k < |nb| ==> nb[k] == values[m].key
    ensures Determine(nb, values, rnd, pos).Ok?
    ensures Determine(nb, values, rnd, pos).value.0 == values[m].key
  {
    assert multiset(nb) == multiset{}[values[m].key := |nb|] by {
      UniformMultiset(nb, values[m].key);
    }
    assert values[m].key in KeysOf(values);
    StrictMajorityWins(nb, values, rnd, pos, m);
  }

  /** A sequence holding `x` everywhere, as a multiset. */
  lemma {:induction false} UniformMultiset<V>(s: seq<V>, x: V)
    requires forall k :: 0 <= k < |s| ==> s[k] == x
    ensures multiset(s) == multiset{}[x := |s|]
  {
    if s != [] {
      var front := s[..|s| - 1];
      UniformMultiset(front, x);
      assert s == front + [x];
    }
  }

  /** One smoothing pass per entry of `passes`, in order, pass k visiting the
      cells in the row-major order shuffled by `passes[k]`; the first
      exception ends the run. */
  function Passes<V(==)>(g: Grid<V>, h: nat, w: nat, passes: seq<seq<nat>>, values: Table<V>,
                         rnd: Draws, pos: nat): (r: Result<(Grid<V>, nat)>)
    requires Rect(g, h, w) && ArePermutations(passes, Area(h, w))
    ensures r.Ok? ==> Rect(r.value.0, h, w) && pos <= r.value.1
    decreases |passes|
  {
    if passes == [] then Ok((g, pos))
    else
      assert IsPermutation(passes[0], Area(h, w)) && |RowMajor(h, w)| == Area(h, w);
      match SmoothAlong(g, h, w, Permute(RowMajor(h, w), passes[0]), values, rnd, pos)
      case Err(e) => Err(e)
      case Ok(step) => Passes(step.0, h, w, passes[1..], values, rnd, step.1)
  }

  /** Repeated passes over a terrain of at least 2 x 2 whose cells are all keys
      never fail, and every cell is still a key afterwards. */
  lemma {:induction false} PassesKeepTerrain<V>(g: Grid<V>, h: nat, w: nat, passes: seq<seq<nat>>, values: Table<V>,
                                                   rnd: Draws, pos: nat)
    requires IsTerrain(g, h, w, values) && h >= 2 && w >= 2 && |values| > 0
    requires ArePermutations(passes, Area(h, w))
    ensures Passes(g, h, w, passes, values, rnd, pos).Ok?
    ensures IsTerrain(Passes(g, h, w, passes, values, rnd, pos).value.0, h, w, values)
    decreases |passes|
  {
    if passes != [] {
      ShuffledCoords(h, w, passes[0]);
      var order := Permute(RowMajor(h, w), passes[0]);
      SmoothAlongKeepsTerrain(g, h, w, order, values, rnd, pos);
      var step := SmoothAlong(g, h, w, order, values, rnd, pos).value;
      PassesKeepTerrain(step.0, h, w, passes[1..], values, rnd, step.1);
    }
  }

  /** A single row or column that holds cells fails at the first pass. */
  lemma {:induction false} PassesNarrowFail<V>(g: Grid<V>, h: nat, w: nat, passes: seq<seq<nat>>, values: Table<V>,
                                                  rnd: Draws, pos: nat)
    requires Rect(g, h, w) && h > 0 && w > 0 && (h == 1 || w == 1) && passes != []
    requires ArePermutations(passes, Area(h, w))
    ensures Passes(g, h, w, passes, values, rnd, pos) == Err(IndexError)
  {
    ShuffledCoords(h, w, passes[0]);
    var order := Permute(RowMajor(h, w), passes[0]);
    assert (0, 0) in order;
    NarrowTerrainFails(g, h, w, order, values, rnd, pos);
  }

  /** Without cells there is nothing to visit: every pass leaves the terrain
      and the draws as they are. */
  lemma {:induction false} PassesEmpty<V>(g: Grid<V>, h: nat, w: nat, passes: seq<seq<nat>>, values: Table<V>,
                                             rnd: Draws, pos: nat)
    requires Rect(g, h, w) && (h == 0 || w == 0)
    requires ArePermutations(passes, Area(h, w))
    ensures Passes(g, h, w, passes, values, rnd, pos) == Ok((g, pos))
    decreases |passes|
  {
    if passes != [] {
      ShuffledCoords(h, w, passes[0]);
      assert Permute(RowMajor(h, w), passes[0]) == [];
      PassesEmpty(g, h, w, passes[1..], values, rnd, pos);
    }
  }
}
