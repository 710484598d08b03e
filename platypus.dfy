/** The library entry point: a blank terrain is filled with weighted noise
    and then smoothed a given number of times, each pass visiting every cell
    once in shuffled order. */
module Platypus {
  import opened Basics
  import opened Sampler
  import opened Neighbours
  import opened Majority
  import opened Indices
  import opened Smoothing

  /** The value a draw in [0, 1) selects from a table of positive total weight. */
  ghost function NoiseCell<V>(values: Table<V>, draw: real): (v: V)
    requires Sum(values) > 0.0 && 0.0 <= draw < 1.0
    ensures Choose(values, draw) == Some(v) && v in KeysOf(values)
  {
    ChooseIsKey(values, draw);
    Choose(values, draw).value
  }

  /** The number of the draw that fills cell (i, j) when the cells of rows of
      `w` cells are filled row by row from draw `pos` on. */
  function DrawIndex(pos: nat, w: nat, i: nat, j: nat): nat
  {
    pos + i * w + j
  }

  /** The noise an h x w terrain is filled with when the draws start at `pos`:
      cell (i, j) takes the value selected by draw pos + i * w + j. */
  ghost function NoiseGrid<V>(h: nat, w: nat, values: Table<V>, rnd: Draws, pos: nat): (g: Grid<V>)
    requires Sum(values) > 0.0 && UnitDraws(rnd)
    ensures IsTerrain(g, h, w, values)
    ensures forall i, j :: 0 <= i < h && 0 <= j < w ==> Choose(values, rnd(DrawIndex(pos, w, i, j))) == Some(g[i][j])
  {
    var g := seq(h, i requires 0 <= i < h =>
      seq(w, j requires 0 <= j < w => NoiseCell(values, rnd(DrawIndex(pos, w, i, j)))));
    assert forall i, j :: 0 <= i < h && 0 <= j < w ==> g[i][j] == NoiseCell(values, rnd(DrawIndex(pos, w, i, j)));
    g
  }

  /** A `height` x `width` terrain whose cells are all still unset. */
  method CreateBlank<V(0)>(width: int, height: int) returns (terrain: array2<V>)
    ensures fresh(terrain)
    ensures terrain.Length0 == RangeLength(height) && terrain.Length1 == RangeLength(width)
  {
    terrain := new V[RangeLength(height), RangeLength(width)];
  }

  /** Fills every cell, row by row, with a weighted random value; returns the
      next unused draw. */
  method CreateNoise<V>(terrain: array2<V>, values: Table<V>, rnd: Draws, pos: nat) returns (next: nat)
    requires Sum(values) > 0.0 && UnitDraws(rnd)
    modifies terrain
    ensures Cells(terrain) == NoiseGrid(terrain.Length0, terrain.Length1, values, rnd, pos)
    ensures next == pos + Area(terrain.Length0, terrain.Length1)
  {
    var h, w := terrain.Length0, terrain.Length1;
    ghost var noise := NoiseGrid(h, w, values, rnd, pos);
    next := pos;
    for i := 0 to h
      invariant next == DrawIndex(pos, w, i, 0)
      invariant forall a, b :: 0 <= a < i && 0 <= b < w ==> terrain[a, b] == noise[a][b]
    {
      next := FillRow(terrain, i, values, rnd, pos, next);
    }
    CellsAre(terrain, noise);
  }

  /** The inner loop of `CreateNoise`: fills row `i` left to right from draw
      `start` on, the first draw of that row, leaving the other rows alone;
      returns the first draw of the next row. */
  method FillRow<V>(terrain: array2<V>, i: nat, values: Table<V>, rnd: Draws, ghost pos: nat, start: nat)
    returns (next: nat)
    requires Sum(values) > 0.0 && UnitDraws(rnd) && i < terrain.Length0
    requires start == DrawIndex(pos, terrain.Length1, i, 0)
    modifies terrain
    ensures var noise := NoiseGrid(terrain.Length0, terrain.Length1, values, rnd, pos);
            forall b :: 0 <= b < terrain.Length1 ==> terrain[i, b] == noise[i][b]
    ensures forall a, b :: 0 <= a < terrain.Length0 && a != i && 0 <= b < terrain.Length1 ==>
              terrain[a, b] == old(terrain[a, b])
    ensures next == DrawIndex(pos, terrain.Length1, i + 1, 0)
  {
    var w := terrain.Length1;
    ghost var noise := NoiseGrid(terrain.Length0, w, values, rnd, pos);
    next := start;
    for j := 0 to w
      invariant next == DrawIndex(pos, w, i, j)
      invariant forall b :: 0 <= b < j ==> terrain[i, b] == noise[i][b]
      invariant forall a, b :: 0 <= a < terrain.Length0 && a != i && 0 <= b < w ==> terrain[a, b] == old(terrain[a, b])
    {
      var v := ChooseValue(values, rnd(next));
      assert Choose(values, rnd(next)) == Some(noise[i][j]);
      terrain[i, j] := v.value;
      next := next + 1;
    }
  }

  /** How a visit loop over a terrain buffer ended, compared with the value-level
      pass: the same terrain and next draw, or the same exception. */
  ghost predicate Matches<V>(expected: Result<(Grid<V>, nat)>, terrain: array2<V>, r: Result<nat>)
    reads terrain
  {
    if r.Ok? then expected == Ok((Cells(terrain), r.value)) else expected == Err(r.error)
  }

  /** Visits the cells of `order` in turn, in place: each visit reads the
      neighbours as the earlier visits left them and stores their plurality
      value. Returns the next unused draw, or the first exception. */
  method SmoothInOrder<V(==)>(terrain: array2<V>, order: seq<Coord>, values: Table<V>, rnd: Draws, pos: nat)
    returns (r: Result<nat>)
    requires AllInGrid(order, terrain.Length0, terrain.Length1)
    modifies terrain
    ensures Matches(SmoothAlong(old(Cells(terrain)), terrain.Length0, terrain.Length1, order, values, rnd, pos), terrain, r)
  {
    var h, w := terrain.Length0, terrain.Length1;
    ghost var target := SmoothAlong(Cells(terrain), h, w, order, values, rnd, pos);
    ghost var todo := order;
    var next := pos;
    for k := 0 to |order|
      invariant todo == order[k..]
      invariant SmoothAlong(Cells(terrain), h, w, todo, values, rnd, next) == target
    {
      var visit := SmoothCellInPlace(terrain, order[k], todo, values, rnd, next);
      if visit.Err? {
        return Err(visit.error);
      }
      next, todo := visit.value, todo[1..];
    }
    return Ok(next);
  }

  /** One visit: reads the neighbours of `c` from the terrain as it is now
      and stores their plurality value there. `order`, which starts with `c`
      and goes on with the cells still to visit afterwards, only names the
      pass this visit belongs to. */
  method SmoothCellInPlace<V(==)>(terrain: array2<V>, c: Coord, ghost order: seq<Coord>, values: Table<V>,
                                  rnd: Draws, pos: nat) returns (r: Result<nat>)
    requires order != [] && order[0] == c && AllInGrid(order, terrain.Length0, terrain.Length1)
    modifies terrain
    ensures var h, w := terrain.Length0, terrain.Length1;
            var expected := SmoothAlong(old(Cells(terrain)), h, w, order, values, rnd, pos);
            if r.Ok? then expected == SmoothAlong(Cells(terrain), h, w, order[1..], values, rnd, r.value)
            else expected == Err(r.error)
    ensures r.Err? ==> Cells(terrain) == old(Cells(terrain))
  {
    var neighbors := NeighborValues(Cells(terrain), c.0, c.1);
    if neighbors.Err? {
      return Err(neighbors.error);
    }
    var vote := DetermineValue(neighbors.value, values, rnd, pos);
    if vote.Err? {
      return Err(vote.error);
    }
    ghost var before := Cells(terrain);
    terrain[c.0, c.1] := vote.value.0;
    CellsAre(terrain, Store(before, c, vote.value.0));
    return Ok(vote.value.1);
  }

  /** One smoothing pass: every cell once, in the row-major order shuffled by
      `perm`. */
  method Smooth<V(==)>(terrain: array2<V>, values: Table<V>, perm: seq<nat>, rnd: Draws, pos: nat)
    returns (r: Result<nat>)
    requires IsPermutation(perm, Area(terrain.Length0, terrain.Length1))
    modifies terrain
    ensures Matches(SmoothAlong(old(Cells(terrain)), terrain.Length0, terrain.Length1,
                                Permute(RowMajor(terrain.Length0, terrain.Length1), perm), values, rnd, pos), terrain, r)
  {
    var indices := ShuffledIndices(terrain.Length0, terrain.Length1, perm);
    ShuffledCoords(terrain.Length0, terrain.Length1, perm);
    r := SmoothInOrder(terrain, indices, values, rnd, pos);
  }

  /** The shuffles of the passes `range(smoothness)` asks for: the first
      `smoothness` of `shuffles`, none when `smoothness` is not positive. */
  function PassShuffles(smoothness: int, shuffles: seq<seq<nat>>): (passes: seq<seq<nat>>)
    requires smoothness <= |shuffles|
    ensures |passes| == RangeLength(smoothness)
    ensures forall k :: 0 <= k < |passes| ==> passes[k] == shuffles[k]
  {
    shuffles[..RangeLength(smoothness)]
  }

  /** Noise on an h x w terrain from draw 0 on, then `smoothness` passes. */
  ghost function Pipeline<V>(h: nat, w: nat, smoothness: int, values: Table<V>, shuffles: seq<seq<nat>>, rnd: Draws)
    : (r: Result<(Grid<V>, nat)>)
    requires Sum(values) > 0.0 && UnitDraws(rnd)
    requires smoothness <= |shuffles| && ArePermutations(shuffles, Area(h, w))
    ensures r.Ok? ==> Rect(r.value.0, h, w) && Area(h, w) <= r.value.1
  {
    Passes(NoiseGrid(h, w, values, rnd, 0), h, w, PassShuffles(smoothness, shuffles), values, rnd, Area(h, w))
  }

  /** The pipeline fails exactly when there is smoothing to do on a terrain of
      a single row or column that holds cells, and the exception is then
      IndexError; otherwise every cell of the result is a key. */
  lemma {:induction false} PipelineOutcome<V>(h: nat, w: nat, smoothness: int, values: Table<V>,
                                             shuffles: seq<seq<nat>>, rnd: Draws)
    requires Sum(values) > 0.0 && UnitDraws(rnd)
    requires smoothness <= |shuffles| && ArePermutations(shuffles, Area(h, w))
    ensures Pipeline(h, w, smoothness, values, shuffles, rnd).Ok? <==>
              !(smoothness > 0 && h > 0 && w > 0 && (h == 1 || w == 1))
    ensures Pipeline(h, w, smoothness, values, shuffles, rnd).Err? ==>
              Pipeline(h, w, smoothness, values, shuffles, rnd).error == IndexError
    ensures Pipeline(h, w, smoothness, values, shuffles, rnd).Ok? ==>
              IsTerrain(Pipeline(h, w, smoothness, values, shuffles, rnd).value.0, h, w, values)
  {
    var noise := NoiseGrid(h, w, values, rnd, 0);
    var passes := PassShuffles(smoothness, shuffles);
    if smoothness <= 0 {
      assert passes == [];
    } else if h == 0 || w == 0 {
      PassesEmpty(noise, h, w, passes, values, rnd, Area(h, w));
    } else if h == 1 || w == 1 {
      PassesNarrowFail(noise, h, w, passes, values, rnd, Area(h, w));
    } else {
      assert values != [];
      PassesKeepTerrain(noise, h, w, passes, values, rnd, Area(h, w));
    }
  }

  /** Without smoothing the pipeline yields the noise itself, and the next
      draw is the first one the noise left unused. */
  lemma {:induction false} PipelineWithoutSmoothing<V>(h: nat, w: nat, smoothness: int, values: Table<V>,
                                                      shuffles: seq<seq<nat>>, rnd: Draws)
    requires Sum(values) > 0.0 && UnitDraws(rnd)
    requires smoothness <= 0 && ArePermutations(shuffles, Area(h, w))
    ensures Pipeline(h, w, smoothness, values, shuffles, rnd) == Ok((NoiseGrid(h, w, values, rnd, 0), Area(h, w)))
  {
    assert PassShuffles(smoothness, shuffles) == [];
  }

  /** What the library's entry point yields: ValueError naming the attempted
      size when either side is below 3, else the smoothed noise. */
  ghost function Generated<V>(width: int, height: int, smoothness: int, values: Table<V>,
                                  shuffles: seq<seq<nat>>, rnd: Draws): (r: Result<Grid<V>>)
    requires width >= 3 && height >= 3 ==> Sum(values) > 0.0 && UnitDraws(rnd)
    requires width >= 3 && height >= 3 ==> smoothness <= |shuffles| && ArePermutations(shuffles, Area(height, width))
    ensures width < 3 || height < 3 ==> r == Err(ValueError(width, height))
    ensures r.Ok? ==> Rect(r.value, height, width)
  {
    if width < 3 || height < 3 then Err(ValueError(width, height))
    else
      match Pipeline(height, width, smoothness, values, shuffles, rnd)
      case Err(e) => Err(e)
      case Ok(done) => Ok(done.0)
  }

  /** The library raises exactly when a side is below 3, and then ValueError
      with the attempted size; otherwise the result is a `height` x `width`
      terrain of keys. */
  lemma {:induction false} GeneratedOutcome<V>(width: int, height: int, smoothness: int, values: Table<V>,
                                              shuffles: seq<seq<nat>>, rnd: Draws)
    requires width >= 3 && height >= 3 ==> Sum(values) > 0.0 && UnitDraws(rnd)
    requires width >= 3 && height >= 3 ==> smoothness <= |shuffles| && ArePermutations(shuffles, Area(height, width))
    ensures Generated(width, height, smoothness, values, shuffles, rnd).Ok? <==> width >= 3 && height >= 3
    ensures Generated(width, height, smoothness, values, shuffles, rnd).Err? ==>
              Generated(width, height, smoothness, values, shuffles, rnd).error == ValueError(width, height)
    ensures Generated(width, height, smoothness, values, shuffles, rnd).Ok? ==>
              IsTerrain(Generated(width, height, smoothness, values, shuffles, rnd).value, height, width, values)
  {
    if width >= 3 && height >= 3 {
      PipelineOutcome(height, width, smoothness, values, shuffles, rnd);
    }
  }

  /** A table with a single value of positive weight yields a terrain holding
      that value everywhere, however often it is smoothed. */
  lemma {:induction false} SingleValueFillsTerrain<V>(width: int, height: int, smoothness: int, x: V, weight: real,
                                                     shuffles: seq<seq<nat>>, rnd: Draws)
    requires weight > 0.0 && UnitDraws(rnd) && width >= 3 && height >= 3
    requires smoothness <= |shuffles| && ArePermutations(shuffles, Area(height, width))
    ensures Sum([Entry(x, weight)]) > 0.0
    ensures Generated(width, height, smoothness, [Entry(x, weight)], shuffles, rnd).Ok?
    ensures forall i, j :: 0 <= i < height && 0 <= j < width ==>
              Generated(width, height, smoothness, [Entry(x, weight)], shuffles, rnd).value[i][j] == x
  {
    var values: Table<V> := [Entry(x, weight)];
    assert values[..0] == [];
    assert KeysOf(values) == [x];
    GeneratedOutcome(width, height, smoothness, values, shuffles, rnd);
  }

  /** The smoothing loop of the entry point: `smoothness` passes in place,
      pass k shuffled by `shuffles[k]`; the first exception ends it. */
  method SmoothRepeatedly<V(==)>(terrain: array2<V>, smoothness: int, values: Table<V>, shuffles: seq<seq<nat>>,
                                 rnd: Draws, pos: nat) returns (r: Result<nat>)
    requires smoothness <= |shuffles| && ArePermutations(shuffles, Area(terrain.Length0, terrain.Length1))
    modifies terrain
    ensures Matches(Passes(old(Cells(terrain)), terrain.Length0, terrain.Length1, PassShuffles(smoothness, shuffles),
                           values, rnd, pos), terrain, r)
  {
    var h, w := terrain.Length0, terrain.Length1;
    ghost var rest := PassShuffles(smoothness, shuffles);
    ghost var target := Passes(Cells(terrain), h, w, rest, values, rnd, pos);
    var next := pos;
    var i := 0;
    while i < smoothness
      invariant 0 <= i <= RangeLength(smoothness) && rest == shuffles[i..RangeLength(smoothness)]
      invariant Passes(Cells(terrain), h, w, rest, values, rnd, next) == target
    {
      var pass := SmoothStep(terrain, shuffles[i], values, rest, rnd, next);
      if pass.Err? {
        return Err(pass.error);
      }
      next, i, rest := pass.value, i + 1, rest[1..];
    }
    assert rest == [];
    return Ok(next);
  }

  /** One turn of the smoothing loop: the pass shuffled by `perm`, which is
      the first of the `passes` still to come. */
  method SmoothStep<V(==)>(terrain: array2<V>, perm: seq<nat>, values: Table<V>, ghost passes: seq<seq<nat>>,
                           rnd: Draws, pos: nat) returns (r: Result<nat>)
    requires passes != [] && passes[0] == perm && ArePermutations(passes, Area(terrain.Length0, terrain.Length1))
    modifies terrain
    ensures var h, w := terrain.Length0, terrain.Length1;
            var expected := Passes(old(Cells(terrain)), h, w, passes, values, rnd, pos);
            if r.Ok? then expected == Passes(Cells(terrain), h, w, passes[1..], values, rnd, r.value)
            else expected == Err(r.error)
  {
    ghost var h, w := terrain.Length0, terrain.Length1;
    ghost var before := Cells(terrain);
    ghost var order := Permute(RowMajor(h, w), perm);
    r := Smooth(terrain, values, perm, rnd, pos);
    if r.Ok? {
      assert SmoothAlong(before, h, w, order, values, rnd, pos) == Ok((Cells(terrain), r.value));
    } else {
      assert SmoothAlong(before, h, w, order, values, rnd, pos) == Err(r.error);
    }
  }

  /** The library entry point: check the size, make a blank terrain, fill it
      with noise, then smooth it `smoothness` times. */
  method Generate<V(0,==)>(width: int, height: int, smoothness: int, values: Table<V>,
                           shuffles: seq<seq<nat>>, rnd: Draws) returns (r: Result<array2<V>>)
    requires width >= 3 && height >= 3 ==> Sum(values) > 0.0 && UnitDraws(rnd)
    requires width >= 3 && height >= 3 ==> smoothness <= |shuffles| && ArePermutations(shuffles, Area(height, width))
    ensures r.Ok? ==> fresh(r.value) && r.value.Length0 == height && r.value.Length1 == width
    ensures Generated(width, height, smoothness, values, shuffles, rnd) ==
              if r.Ok? then Ok(Cells(r.value)) else Err(r.error)
  {
    if width < 3 || height < 3 {
      return Err(ValueError(width, height));
    }
    var terrain := CreateBlank(width, height);
    var next := CreateNoise(terrain, values, rnd, 0);
    ghost var noise := NoiseGrid(height, width, values, rnd, 0);
    ghost var outcome := Passes(noise, height, width, PassShuffles(smoothness, shuffles), values, rnd, next);
    assert Cells(terrain) == noise && next == Area(height, width);
    assert Pipeline(height, width, smoothness, values, shuffles, rnd) == outcome;
    var smoothed := SmoothRepeatedly(terrain, smoothness, values, shuffles, rnd, next);
    assert Matches(outcome, terrain, smoothed);
    if smoothed.Err? {
      assert outcome == Err(smoothed.error);
      return Err(smoothed.error);
    }
    assert outcome == Ok((Cells(terrain), smoothed.value));
    return Ok(terrain);
  }
}
