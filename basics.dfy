/** Shared vocabulary of the terrain generator: errors, the weight table,
    coordinates, grids and the injected random source. */
module Basics {

  /** The exceptions the generator can raise. */
  datatype Error =
    | ValueError(width: int, height: int)  // terrain smaller than 3x3; the message names the attempted size
    | KeyError                             // a neighbour value that is not a key of the weight table
    | IndexError                           // a neighbour lookup past the last row or column, or a table without keys

  datatype Option<T> = None | Some(value: T)

  datatype Result<T> = Ok(value: T) | Err(error: Error)

  /** One entry of the insertion-ordered weight dictionary: a terrain value and its relative weight. */
  datatype Entry<V> = Entry(key: V, weight: real)

  predicate DistinctKeys<V(==)>(t: seq<Entry<V>>) {
    forall a, b :: 0 <= a < b < |t| ==> t[a].key != t[b].key
  }

  /** A dictionary from terrain values to weights, in insertion order; its keys are distinct. */
  type Table<V(==)> = t: seq<Entry<V>> | DistinctKeys(t) witness []

  /** The keys of a table, in iteration order. */
  function KeysOf<V>(t: seq<Entry<V>>): (ks: seq<V>)
    ensures |ks| == |t|
    ensures forall k :: 0 <= k < |t| ==> ks[k] == t[k].key
  {
    seq(|t|, k requires 0 <= k < |t| => t[k].key)
  }

  predicate Distinct<T(==)>(s: seq<T>) {
    forall a, b :: 0 <= a < b < |s| ==> s[a] != s[b]
  }

  /** How many numbers `range(n)` yields: `n`, or none when `n` is negative. */
  function RangeLength(n: int): nat
  {
    if n < 0 then 0 else n
  }

  /** The number of cells of a terrain of `h` rows of `w` cells. */
  function Area(h: nat, w: nat): nat
  {
    h * w
  }

  /** A (row, column) pair. */
  type Coord = (int, int)

  predicate InGrid(c: Coord, h: int, w: int) {
    0 <= c.0 < h && 0 <= c.1 < w
  }

  /** A terrain as a value: a list of rows. */
  type Grid<V> = seq<seq<V>>

  /** `h` rows of `w` cells each. */
  predicate Rect<V>(g: Grid<V>, h: int, w: int) {
    |g| == h && forall i :: 0 <= i < |g| ==> |g[i]| == w
  }

  /** A finished terrain: `h` rows of `w` cells, every cell a key of `values`. */
  predicate IsTerrain<V(==)>(g: Grid<V>, h: int, w: int, values: seq<Entry<V>>) {
    Rect(g, h, w) && forall i, j :: 0 <= i < h && 0 <= j < w ==> g[i][j] in KeysOf(values)
  }

  /** The stream of `random.random()` results: draw number `n` is `rnd(n)`. */
  type Draws = nat -> real

  ghost predicate UnitDraws(rnd: Draws) {
    forall n: nat :: 0.0 <= rnd(n) < 1.0
  }

  /** The current contents of a terrain buffer, as a value. */
  function Cells<V>(a: array2<V>): (g: Grid<V>)
    reads a
    ensures Rect(g, a.Length0, a.Length1)
    ensures forall i, j :: 0 <= i < a.Length0 && 0 <= j < a.Length1 ==> g[i][j] == a[i, j]
  {
    seq(a.Length0, i reads a requires 0 <= i < a.Length0 =>
      seq(a.Length1, j reads a requires 0 <= j < a.Length1 => a[i, j]))
  }

  /** A buffer whose cells agree with `g` everywhere holds exactly `g`. */
  lemma {:induction false} CellsAre<V>(a: array2<V>, g: Grid<V>)
    requires Rect(g, a.Length0, a.Length1)
    requires forall i, j :: 0 <= i < a.Length0 && 0 <= j < a.Length1 ==> a[i, j] == g[i][j]
    ensures Cells(a) == g
  {
    var c := Cells(a);
    forall i | 0 <= i < a.Length0
      ensures c[i] == g[i]
    {
      assert |c[i]| == |g[i]|;
    }
  }
}
