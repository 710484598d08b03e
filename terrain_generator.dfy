/** The object form of the generator: the size and the weight table are fixed
    when the generator is made, and every step reads them from it. Unlike the
    library entry point it checks no size, and it can also smooth in plain
    row-major order. */
module Generator {
  import opened Basics
  import opened Sampler
  import opened Neighbours
  import opened Majority
  import opened Indices
  import opened Smoothing
  import Platypus

  class TerrainGenerator<V(0,==)> {
    const width: int
    const height: int
    const values: Table<V>

    /** Splits `dimensions` into width and height and keeps the table. */
    constructor(dimensions: (int, int), values: Table<V>)
      ensures width == dimensions.0 && height == dimensions.1 && this.values == values
    {
      width := dimensions.0;
      height := dimensions.1;
      this.values := values;
    }

    /** The number of rows of the terrains this generator makes: `range(height)`. */
    function Rows(): nat {
      RangeLength(height)
    }

    /** The number of cells per row: `range(width)`. */
    function Columns(): nat {
      RangeLength(width)
    }

    /** A terrain of the generator's size whose cells are all still unset. */
    method CreateBlank() returns (terrain: array2<V>)
      ensures fresh(terrain)
      ensures terrain.Length0 == Rows() && terrain.Length1 == Columns()
    {
      terrain := Platypus.CreateBlank(width, height);
    }

    /** Fills every cell of `terrain`, row by row, with a weighted random
        value; returns the next unused draw. */
    method CreateNoise(terrain: array2<V>, rnd: Draws, pos: nat) returns (next: nat)
      requires Sum(values) > 0.0 && UnitDraws(rnd)
      modifies terrain
      ensures Cells(terrain) == Platypus.NoiseGrid(terrain.Length0, terrain.Length1, values, rnd, pos)
      ensures next == pos + Area(terrain.Length0, terrain.Length1)
    {
      next := Platypus.CreateNoise(terrain, values, rnd, pos);
    }

    /** The weighted choice among the generator's values for one draw. */
    method ChooseValue(draw: real) returns (v: Option<V>)
      ensures v == Choose(values, draw)
      ensures Sum(values) > 0.0 && 0.0 <= draw < 1.0 ==> v.Some? && v.value in KeysOf(values)
    {
      v := Sampler.ChooseValue(values, draw);
    }

    /** The plurality vote among `neighbors` over the generator's values. */
    method DetermineValue(neighbors: seq<V>, rnd: Draws, pos: nat) returns (r: Result<(V, nat)>)
      ensures r == Determine(neighbors, values, rnd, pos)
    {
      r := Majority.DetermineValue(neighbors, values, rnd, pos);
    }

    /** Every coordinate of the generator's size, row by row, shuffled by `perm`. */
    method GenerateIndicesList(perm: seq<nat>) returns (indices: seq<Coord>)
      requires IsPermutation(perm, Area(Rows(), Columns()))
      ensures indices == Permute(RowMajor(Rows(), Columns()), perm)
    {
      indices := ShuffledIndices(Rows(), Columns(), perm);
    }

    /** Smooths `terrain` in place, visiting the cells row by row and column by
        column; returns the next unused draw, or the first exception. */
    method SmoothIndex(terrain: array2<V>, rnd: Draws, pos: nat) returns (r: Result<nat>)
      modifies terrain
      ensures Platypus.Matches(SmoothAlong(old(Cells(terrain)), terrain.Length0, terrain.Length1,
                                           RowMajor(terrain.Length0, terrain.Length1), values, rnd, pos), terrain, r)
    {
      var h, w := terrain.Length0, terrain.Length1;
      ghost var target := SmoothAlong(Cells(terrain), h, w, RowMajor(h, w), values, rnd, pos);
      RowMajorSplit(0, h, w);
      assert RowMajor(0, w) + RowsFrom(0, h, w) == RowsFrom(0, h, w);
      var next := pos;
      for i := 0 to h
        invariant SmoothAlong(Cells(terrain), h, w, RowsFrom(i, h, w), values, rnd, next) == target
      {
        var row := SmoothRow(terrain, i, RowsFrom(i + 1, h, w), rnd, next);
        if row.Err? {
          return Err(row.error);
        }
        next := row.value;
      }
      assert RowsFrom(h, h, w) == [];
      return Ok(next);
    }

    /** The inner loop of `SmoothIndex`: visits the cells of row `i` left to
        right. `rows`, the cells still to visit afterwards, only names the
        pass these visits belong to. */
    method SmoothRow(terrain: array2<V>, i: nat, ghost rows: seq<Coord>, rnd: Draws, pos: nat) returns (r: Result<nat>)
      requires i < terrain.Length0 && AllInGrid(rows, terrain.Length0, terrain.Length1)
      modifies terrain
      ensures var h, w := terrain.Length0, terrain.Length1;
              var expected := SmoothAlong(old(Cells(terrain)), h, w, Row(i, w) + rows, values, rnd, pos);
              if r.Ok? then expected == SmoothAlong(Cells(terrain), h, w, rows, values, rnd, r.value)
              else expected == Err(r.error)
    {
      var h, w := terrain.Length0, terrain.Length1;
      ghost var todo := Row(i, w) + rows;
      ghost var target := SmoothAlong(Cells(terrain), h, w, todo, values, rnd, pos);
      var next := pos;
      for j := 0 to w
        invariant todo == Row(i, w)[j..] + rows && AllInGrid(todo, h, w)
        invariant SmoothAlong(Cells(terrain), h, w, todo, values, rnd, next) == target
      {
        assert todo[0] == (i, j) && todo[1..] == Row(i, w)[j + 1..] + rows;
        var visit := Platypus.SmoothCellInPlace(terrain, (i, j), todo, values, rnd, next);
        if visit.Err? {
          return Err(visit.error);
        }
        next, todo := visit.value, todo[1..];
      }
      assert todo == rows;
      return Ok(next);
    }

    /** One smoothing pass over a terrain of the generator's size: every cell
        once, in the row-major order shuffled by `perm`. */
    method SmoothRandom(terrain: array2<V>, perm: seq<nat>, rnd: Draws, pos: nat) returns (r: Result<nat>)
      requires terrain.Length0 == Rows() && terrain.Length1 == Columns()
      requires IsPermutation(perm, Area(Rows(), Columns()))
      modifies terrain
      ensures Platypus.Matches(SmoothAlong(old(Cells(terrain)), Rows(), Columns(),
                                           Permute(RowMajor(Rows(), Columns()), perm), values, rnd, pos), terrain, r)
    {
      var indices := GenerateIndicesList(perm);
      ShuffledCoords(Rows(), Columns(), perm);
      r := Platypus.SmoothInOrder(terrain, indices, values, rnd, pos);
    }

    /** The smoothing loop of `Generate`: `smoothness` random passes in
        place, pass k shuffled by `shuffles[k]`; the first exception ends it. */
    method SmoothRandomRepeatedly(terrain: array2<V>, smoothness: int, shuffles: seq<seq<nat>>, rnd: Draws, pos: nat)
      returns (r: Result<nat>)
      requires terrain.Length0 == Rows() && terrain.Length1 == Columns()
      requires smoothness <= |shuffles| && ArePermutations(shuffles, Area(Rows(), Columns()))
      modifies terrain
      ensures Platypus.Matches(Passes(old(Cells(terrain)), Rows(), Columns(), Platypus.PassShuffles(smoothness, shuffles),
                                      values, rnd, pos), terrain, r)
    {
      var h, w := Rows(), Columns();
      ghost var rest := Platypus.PassShuffles(smoothness, shuffles);
      ghost var target := Passes(Cells(terrain), h, w, rest, values, rnd, pos);
      var next := pos;
      var i := 0;
      while i < smoothness
        invariant 0 <= i <= RangeLength(smoothness) && rest == shuffles[i..RangeLength(smoothness)]
        invariant Passes(Cells(terrain), h, w, rest, values, rnd, next) == target
      {
        var pass := SmoothRandomStep(terrain, shuffles[i], rest, rnd, next);
        if pass.Err? {
          return Err(pass.error);
        }
        next, i, rest := pass.value, i + 1, rest[1..];
      }
      assert rest == [];
      return Ok(next);
    }

    /** One turn of the smoothing loop of `Generate`: the random pass shuffled
        by `perm`, which is the first of the `passes` still to come. */
    method SmoothRandomStep(terrain: array2<V>, perm: seq<nat>, ghost passes: seq<seq<nat>>, rnd: Draws, pos: nat)
      returns (r: Result<nat>)
      requires terrain.Length0 == Rows() && terrain.Length1 == Columns()
      requires passes != [] && passes[0] == perm && ArePermutations(passes, Area(Rows(), Columns()))
      modifies terrain
      ensures var expected := Passes(old(Cells(terrain)), Rows(), Columns(), passes, values, rnd, pos);
              if r.Ok? then expected == Passes(Cells(terrain), Rows(), Columns(), passes[1..], values, rnd, r.value)
              else expected == Err(r.error)
    {
      ghost var h, w := Rows(), Columns();
      ghost var before := Cells(terrain);
      ghost var order := Permute(RowMajor(h, w), perm);
      r := SmoothRandom(terrain, perm, rnd, pos);
      if r.Ok? {
        assert SmoothAlong(before, h, w, order, values, rnd, pos) == Ok((Cells(terrain), r.value));
      } else {
        assert SmoothAlong(before, h, w, order, values, rnd, pos) == Err(r.error);
      }
    }

    /** A blank terrain of the generator's size, filled with noise from draw 0
        on, then smoothed `smoothness` times, pass k shuffled by `shuffles[k]`.
        The outcome is the library pipeline's at this size; no size is
        checked, so a single row or column fails with IndexError once there is
        smoothing to do (see `Platypus.PipelineOutcome`). */
    method Generate(smoothness: int, shuffles: seq<seq<nat>>, rnd: Draws) returns (r: Result<array2<V>>)
      requires Sum(values) > 0.0 && UnitDraws(rnd)
      requires smoothness <= |shuffles| && ArePermutations(shuffles, Area(Rows(), Columns()))
      ensures r.Ok? ==> fresh(r.value) && r.value.Length0 == Rows() && r.value.Length1 == Columns()
      ensures var p := Platypus.Pipeline(Rows(), Columns(), smoothness, values, shuffles, rnd);
              if r.Ok? then p.Ok? && p.value.0 == Cells(r.value) else p == Err(r.error)
    {
      var h, w := Rows(), Columns();
      var terrain := CreateBlank();
      var next := CreateNoise(terrain, rnd, 0);
      ghost var noise := Platypus.NoiseGrid(h, w, values, rnd, 0);
      ghost var outcome := Passes(noise, h, w, Platypus.PassShuffles(smoothness, shuffles), values, rnd, next);
      assert Cells(terrain) == noise && next == Area(h, w);
      assert Platypus.Pipeline(h, w, smoothness, values, shuffles, rnd) == outcome;
      var smoothed := SmoothRandomRepeatedly(terrain, smoothness, shuffles, rnd, next);
      assert Platypus.Matches(outcome, terrain, smoothed);
      if smoothed.Err? {
        assert outcome == Err(smoothed.error);
        return Err(smoothed.error);
      }
      assert outcome == Ok((Cells(terrain), smoothed.value));
      return Ok(terrain);
    }
  }
}
