/** Weighted choice of a terrain value by inverse-CDF sampling over the
    insertion-ordered weight table. */
module Sampler {
  import opened Basics

  /** Sum of the weights of `t`, added front to back. */
  function Sum<V>(t: seq<Entry<V>>): real
  {
    if t == [] then 0.0 else Sum(t[..|t| - 1]) + t[|t| - 1].weight
  }

  predicate PositiveWeights<V>(t: seq<Entry<V>>) {
    forall k :: 0 <= k < |t| ==> t[k].weight > 0.0
  }

  /** The running threshold once entry `k` has been added. */
  function Threshold<V>(t: seq<Entry<V>>, k: nat): real
    requires k < |t|
  {
    Sum(t[..k + 1])
  }

  /** Index of the first entry, from `i` on, whose running threshold exceeds
      `choice`; None when the scan falls through. */
  function FirstAbove<V>(t: seq<Entry<V>>, choice: real, i: nat): (r: Option<nat>)
    requires i <= |t|
    ensures r.Some? ==> i <= r.value < |t| && choice < Threshold(t, r.value)
    decreases |t| - i
  {
    if i == |t| then None
    else if choice < Threshold(t, i) then Some(i)
    else FirstAbove(t, choice, i + 1)
  }

  /** The value a scaled draw `choice` selects: the first entry whose running
      threshold exceeds it, or None when the walk falls through. */
  function Pick<V>(t: seq<Entry<V>>, choice: real): (r: Option<V>)
    ensures r.Some? ==> r.value in KeysOf(t)
    ensures t != [] && choice < Sum(t) ==> r.Some?
  {
    assert t != [] && choice < Sum(t) ==> FirstAbove(t, choice, 0).Some? by {
      if t != [] && choice < Sum(t) {
        FirstAboveFinds(t, choice, 0);
      }
    }
    match FirstAbove(t, choice, 0)
    case None => None
    case Some(k) =>
      assert KeysOf(t)[k] == t[k].key;
      Some(t[k].key)
  }

  /** A draw from [0, 1) stretched over [0, total). */
  function ScaledDraw(draw: real, total: real): real {
    draw * total
  }

  /** The value `random.random() == draw` selects: the draw is scaled by the
      total weight and the table is walked in order. */
  function Choose<V>(t: seq<Entry<V>>, draw: real): (r: Option<V>)
    ensures r.Some? ==> r.value in KeysOf(t)
  {
    Pick(t, ScaledDraw(draw, Sum(t)))
  }

  /** Weighted choice of one value. Falls through to None, as the loop does,
      when no running threshold exceeds the scaled draw. */
  method ChooseValue<V>(values: Table<V>, draw: real) returns (v: Option<V>)
    ensures v == Choose(values, draw)
    ensures Sum(values) > 0.0 && 0.0 <= draw < 1.0 ==> v.Some? && v.value in KeysOf(values)
  {
    var maximum := 0.0;
    for k := 0 to |values|
      invariant maximum == Sum(values[..k])
    {
      assert values[..k + 1][..k] == values[..k];
      maximum := maximum + values[k].weight;
    }
    assert values[..|values|] == values;
    var choice := ScaledDraw(draw, maximum);
    v := WalkThresholds(values, choice);
    ChooseIsKey(values, draw);
  }

  /** The second loop of the weighted choice: add up the weights in table order
      until the running threshold exceeds `choice`. */
  method WalkThresholds<V>(values: seq<Entry<V>>, choice: real) returns (v: Option<V>)
    ensures v == Pick(values, choice)
  {
    var threshold := 0.0;
    for k := 0 to |values|
      invariant threshold == Sum(values[..k])
      invariant FirstAbove(values, choice, k) == FirstAbove(values, choice, 0)
    {
      assert values[..k + 1][..k] == values[..k];
      threshold := threshold + values[k].weight;
      if choice < threshold {
        assert threshold == Threshold(values, k);
        return Some(values[k].key);
      }
    }
    return None;
  }

  /** The scan from `i` finds an entry whenever the choice is below the total. */
  lemma {:induction false} FirstAboveFinds<V>(t: seq<Entry<V>>, choice: real, i: nat)
    requires i < |t| && choice < Sum(t)
    ensures FirstAbove(t, choice, i).Some?
    decreases |t| - i
  {
    if i + 1 == |t| {
      assert t[..i + 1] == t;
    } else if choice >= Threshold(t, i) {
      FirstAboveFinds(t, choice, i + 1);
    }
  }

  /** A draw below 1 stays below a positive total once scaled. */
  lemma ScaledDrawBelow(draw: real, total: real)
    requires 0.0 <= draw < 1.0 && total > 0.0
    ensures 0.0 <= ScaledDraw(draw, total) < total
  {
    var rest := 1.0 - draw;
    assert rest > 0.0;
    assert rest * total > 0.0;
    assert draw * total == total - rest * total;
  }

  /** With a positive total and a draw in [0, 1), a key of the table is chosen. */
  lemma {:induction false} ChooseIsKey<V>(t: seq<Entry<V>>, draw: real)
    ensures Sum(t) > 0.0 && 0.0 <= draw < 1.0 ==> Choose(t, draw).Some? && Choose(t, draw).value in KeysOf(t)
  {
    if Sum(t) > 0.0 && 0.0 <= draw < 1.0 {
      assert t != [];
      ScaledDrawBelow(draw, Sum(t));
      FirstAboveFinds(t, ScaledDraw(draw, Sum(t)), 0);
      var k := FirstAbove(t, ScaledDraw(draw, Sum(t)), 0).value;
      assert KeysOf(t)[k] == t[k].key;
    }
  }

  /** `FirstAbove` from `i` returns `k` exactly when `k` is the first index at
      or after `i` whose running threshold exceeds the choice. */
  lemma {:induction false} FirstAboveFrom<V>(t: seq<Entry<V>>, choice: real, i: nat, k: nat)
    requires i <= |t|
    ensures FirstAbove(t, choice, i) == Some(k) <==>
              i <= k < |t| && choice < Threshold(t, k) &&
              forall j :: i <= j < k ==> Threshold(t, j) <= choice
    decreases |t| - i
  {
    if i < |t| && Threshold(t, i) <= choice {
      FirstAboveFrom(t, choice, i + 1, k);
    }
  }

  /** The chosen index is the first one whose running threshold exceeds the choice. */
  lemma {:induction false} ChooseIsFirstAbove<V>(t: seq<Entry<V>>, choice: real, k: nat)
    ensures FirstAbove(t, choice, 0) == Some(k) <==>
              k < |t| && choice < Threshold(t, k) &&
              forall j :: 0 <= j < k ==> Threshold(t, j) <= choice
  {
    FirstAboveFrom(t, choice, 0, k);
  }

  /** Running thresholds grow with the index when every weight is positive. */
  lemma {:induction false} SumMonotone<V>(t: seq<Entry<V>>, j: nat, k: nat)
    requires PositiveWeights(t) && j <= k <= |t|
    ensures Sum(t[..j]) <= Sum(t[..k])
    ensures j < k ==> Sum(t[..j]) < Sum(t[..k])
    decreases k - j
  {
    if j < k {
      SumMonotone(t, j, k - 1);
      assert t[..k][..k - 1] == t[..k - 1];
    }
  }

  /** A non-positive total does not by itself make the choice fall through:
      with mixed signs the first running threshold can already exceed every
      scaled draw. */
  lemma MixedSignsChoose(draw: real)
    requires 0.0 <= draw < 1.0
    ensures Choose([Entry('A', 2.0), Entry('B', -3.0)], draw) == Some('A')
    ensures Choose([Entry('A', 1.0), Entry('B', -1.0)], draw) == Some('A')
  {
    var t1, t2 := [Entry('A', 2.0), Entry('B', -3.0)], [Entry('A', 1.0), Entry('B', -1.0)];
    assert t1[..1] == [t1[0]] && t1[..2] == t1 && t1[..0] == [];
    assert t2[..1] == [t2[0]] && t2[..2] == t2 && t2[..0] == [];
    assert Sum(t1) == -1.0 && Sum(t2) == 0.0;
    assert ScaledDraw(draw, Sum(t1)) <= 0.0 < Threshold(t1, 0);
    assert ScaledDraw(draw, Sum(t2)) == 0.0 < Threshold(t2, 0);
  }

  /** With every weight negative the total is negative too, yet a draw can
      still select a key: the scaled draw lies in (total, 0], and the first
      running threshold exceeds it once the draw passes 1/3 here. Smaller
      draws fall through. */
  lemma NegativeWeightsChoose()
    ensures Choose([Entry('A', -0.1), Entry('B', -0.2)], 0.5) == Some('A')
    ensures Choose([Entry('A', -0.1), Entry('B', -0.2)], 0.0) == None
  {
    var t := [Entry('A', -0.1), Entry('B', -0.2)];
    assert t[..1] == [t[0]] && t[..2] == t && t[..0] == [];
    assert Sum(t) == -0.3;
  }

  /** With positive weights, entry `k` is chosen exactly when the choice lies in
      [Sum(t[..k]), Sum(t[..k]) + t[k].weight): each value owns an interval as
      wide as its weight, so a uniform draw picks it with probability
      weight / total. */
  lemma {:induction false} ChooseInterval<V>(t: seq<Entry<V>>, choice: real, k: nat)
    requires PositiveWeights(t) && 0.0 <= choice
    ensures FirstAbove(t, choice, 0) == Some(k) <==>
              k < |t| && Sum(t[..k]) <= choice < Sum(t[..k]) + t[k].weight
  {
    ChooseIsFirstAbove(t, choice, k);
    if k < |t| {
      assert t[..k + 1][..k] == t[..k];
      assert Sum(t[..k + 1]) == Sum(t[..k]) + t[k].weight;
      if Sum(t[..k]) <= choice {
        forall j | 0 <= j < k
          ensures Threshold(t, j) <= choice
        {
          SumMonotone(t, j + 1, k);
        }
      }
      if k > 0 && forall j :: 0 <= j < k ==> Threshold(t, j) <= choice {
        assert Threshold(t, k - 1) <= choice;
      }
    }
  }
}
