/** Plurality vote among neighbour values, with a coin flip on every tie met
    while scanning the keys in table order. */
module Majority {
  import opened Basics

  /** How often `x` occurs in `s`. */
  function Count<V(==)>(s: seq<V>, x: V): nat {
    multiset(s)[x]
  }

  /** Every neighbour is a key of the table. */
  predicate AllKeys<V(==)>(nb: seq<V>, values: seq<Entry<V>>) {
    forall n :: n in nb ==> n in KeysOf(values)
  }

  /** The scan over the keys from index `k` on, with `m` the index of the current
      majority and `pos` the next unused draw: a strictly larger count takes
      over, an equal count (key `m` itself included) takes over only when its
      draw exceeds 0.5, and every tie uses up one draw. Yields the final
      majority index and the next unused draw. */
  function Scan<V(==)>(nb: seq<V>, keys: seq<V>, rnd: Draws, k: nat, m: nat, pos: nat): (r: (nat, nat))
    requires m < |keys| && k <= |keys|
    requires forall j :: 0 <= j < k ==> Count(nb, keys[j]) <= Count(nb, keys[m])
    ensures r.0 < |keys|
    ensures forall j :: 0 <= j < |keys| ==> Count(nb, keys[j]) <= Count(nb, keys[r.0])
    ensures pos <= r.1 <= pos + (|keys| - k)
    decreases |keys| - k
  {
    if k == |keys| then (m, pos)
    else if Count(nb, keys[k]) > Count(nb, keys[m]) then Scan(nb, keys, rnd, k + 1, k, pos)
    else if Count(nb, keys[k]) == Count(nb, keys[m]) then
      Scan(nb, keys, rnd, k + 1, if rnd(pos) > 0.5 then k else m, pos + 1)
    else Scan(nb, keys, rnd, k + 1, m, pos)
  }

  /** The value a cell takes from its neighbours `nb`, and the next unused
      draw. KeyError for a neighbour that is not a key; IndexError for a table
      without keys. Otherwise a key whose count no other key exceeds, after
      using up between one and |values| draws. */
  function Determine<V(==)>(nb: seq<V>, values: Table<V>, rnd: Draws, pos: nat): (r: Result<(V, nat)>)
    ensures r.Err? <==> !AllKeys(nb, values) || |values| == 0
    ensures r.Err? ==> r.error == if AllKeys(nb, values) then IndexError else KeyError
    ensures r.Ok? ==> r.value.0 in KeysOf(values)
    ensures r.Ok? ==> forall x :: x in KeysOf(values) ==> Count(nb, x) <= Count(nb, r.value.0)
    ensures r.Ok? ==> pos + 1 <= r.value.1 <= pos + |values|
  {
    var keys := KeysOf(values);
    if !AllKeys(nb, values) then Err(KeyError)
    else if |keys| == 0 then Err(IndexError)
    else
      var scan := Scan(nb, keys, rnd, 0, 0, pos);
      Ok((keys[scan.0], scan.1))
  }

  /** The tally of the first loop: a dictionary holding a count for every key
      of the table; None where the first neighbour that is not a key raises
      KeyError. */
  method CountNeighbors<V(==)>(neighbors: seq<V>, keys: seq<V>) returns (r: Option<map<V, nat>>)
    ensures r.None? <==> exists n :: n in neighbors && n !in keys
    ensures r.Some? ==> forall x :: x in r.value <==> x in keys
    ensures r.Some? ==> forall x :: x in r.value ==> r.value[x] == Count(neighbors, x)
  {
    var counts: map<V, nat> := map x | x in keys :: 0;
    for t := 0 to |neighbors|
      invariant forall x :: x in counts <==> x in keys
      invariant forall x :: x in counts ==> counts[x] == Count(neighbors[..t], x)
      invariant forall n :: n in neighbors[..t] ==> n in keys
    {
      var n := neighbors[t];
      if n !in counts {
        return None;
      }
      assert neighbors[..t + 1] == neighbors[..t] + [n];
      counts := counts[n := counts[n] + 1];
    }
    assert neighbors[..|neighbors|] == neighbors;
    return Some(counts);
  }

  /** Tallies the neighbours in a dictionary keyed by the table's keys, then
      scans the keys in order, flipping a coin on each tie. */
  method DetermineValue<V(==)>(neighbors: seq<V>, values: Table<V>, rnd: Draws, pos: nat)
    returns (r: Result<(V, nat)>)
    ensures r == Determine(neighbors, values, rnd, pos)
  {
    var keys := KeysOf(values);
    var tally := CountNeighbors(neighbors, keys);
    if tally.None? {
      return Err(KeyError);
    }
    if |keys| == 0 {
      return Err(IndexError);
    }
    var majority, next := FindMajority(neighbors, keys, tally.value, rnd, pos);
    return Ok((majority, next));
  }

  /** The second loop: keep the key with the largest count, flipping a coin
      (one draw) whenever a key ties with the current majority. */
  method FindMajority<V(==)>(neighbors: seq<V>, keys: seq<V>, counts: map<V, nat>, rnd: Draws, pos: nat)
    returns (majority: V, next: nat)
    requires |keys| > 0
    requires forall x :: x in keys ==> x in counts && counts[x] == Count(neighbors, x)
    ensures var scan := Scan(neighbors, keys, rnd, 0, 0, pos); majority == keys[scan.0] && next == scan.1
  {
    majority := keys[0];
    ghost var mi := 0;
    next := pos;
    for k := 0 to |keys|
      invariant mi < |keys| && majority == keys[mi]
      invariant forall j :: 0 <= j < k ==> Count(neighbors, keys[j]) <= Count(neighbors, keys[mi])
      invariant Scan(neighbors, keys, rnd, k, mi, next) == Scan(neighbors, keys, rnd, 0, 0, pos)
    {
      var value := keys[k];
      assert counts[value] == Count(neighbors, keys[k]) && counts[majority] == Count(neighbors, keys[mi]);
      if counts[value] > counts[majority] {
        majority, mi := value, k;
      } else if counts[value] == counts[majority] {
        if rnd(next) > 0.5 {
          majority, mi := value, k;
        }
        next := next + 1;
      }
    }
  }

  /** A key whose count is strictly larger than every other key's is the
      result, whatever the draws. */
  lemma {:induction false} StrictMajorityWins<V>(nb: seq<V>, values: Table<V>, rnd: Draws, pos: nat, w: nat)
    requires w < |values| && AllKeys(nb, values)
    requires forall j :: 0 <= j < |values| && j != w ==> Count(nb, values[j].key) < Count(nb, values[w].key)
    ensures Determine(nb, values, rnd, pos).Ok?
    ensures Determine(nb, values, rnd, pos).value.0 == values[w].key
  {
    var r := Determine(nb, values, rnd, pos).value.0;
    assert values[w].key in KeysOf(values);
    var k :| 0 <= k < |values| && KeysOf(values)[k] == r;
  }

  /** Index of the last key in [lo, hi) whose tie draw `rnd(pos + j)` exceeds
      0.5, or `dflt` when there is none. */
  function LastAbove(rnd: Draws, pos: nat, lo: nat, hi: nat, dflt: nat): (r: nat)
    ensures r == dflt || lo <= r < hi
    decreases hi
  {
    if hi <= lo then dflt
    else if rnd(pos + hi - 1) > 0.5 then hi - 1
    else LastAbove(rnd, pos, lo, hi - 1, dflt)
  }

  lemma {:induction false} LastAboveStep(rnd: Draws, pos: nat, lo: nat, hi: nat, dflt: nat)
    requires lo < hi
    ensures LastAbove(rnd, pos, lo, hi, dflt) ==
            LastAbove(rnd, pos, lo + 1, hi, if rnd(pos + lo) > 0.5 then lo else dflt)
    decreases hi
  {
    if lo + 1 < hi {
      LastAboveStep(rnd, pos, lo, hi - 1, dflt);
    }
  }

  lemma {:induction false} ScanAllTied<V>(nb: seq<V>, keys: seq<V>, rnd: Draws, pos: nat, k: nat, m: nat)
    requires m < |keys| && k <= |keys|
    requires forall j :: 0 <= j < |keys| ==> Count(nb, keys[j]) == Count(nb, keys[0])
    ensures Scan(nb, keys, rnd, k, m, pos + k) == (LastAbove(rnd, pos, k, |keys|, m), pos + |keys|)
    decreases |keys| - k
  {
    if k < |keys| {
      ScanAllTied(nb, keys, rnd, pos, k + 1, if rnd(pos + k) > 0.5 then k else m);
      LastAboveStep(rnd, pos, k, |keys|, m);
    }
  }

  lemma {:induction false} ScanAllTiedFromStart<V>(nb: seq<V>, keys: seq<V>, rnd: Draws, pos: nat)
    requires |keys| > 0
    requires forall j :: 0 <= j < |keys| ==> Count(nb, keys[j]) == Count(nb, keys[0])
    ensures Scan(nb, keys, rnd, 0, 0, pos) == (LastAbove(rnd, pos, 0, |keys|, 0), pos + |keys|)
  {
    ScanAllTied(nb, keys, rnd, pos, 0, 0);
  }

  /** When every key has the same count, every key uses up one draw and the
      winner is the last key whose draw exceeded 0.5 (the first key when none
      did): later keys in table order are favoured, the tie is not broken
      uniformly. */
  lemma {:induction false} AllTiedLastHighDrawWins<V>(nb: seq<V>, values: Table<V>, rnd: Draws, pos: nat)
    requires |values| > 0 && AllKeys(nb, values)
    requires forall j :: 0 <= j < |values| ==> Count(nb, values[j].key) == Count(nb, values[0].key)
    ensures Determine(nb, values, rnd, pos) ==
            Ok((values[LastAbove(rnd, pos, 0, |values|, 0)].key, pos + |values|))
  {
    var keys := KeysOf(values);
    assert forall j :: 0 <= j < |keys| ==> Count(nb, keys[j]) == Count(nb, keys[0]);
    ScanAllTiedFromStart(nb, keys, rnd, pos);
  }

  /** [A, A, B, B] over {A, B}: a draw of exactly 0.5 keeps A, and both keys
      use up a draw. */
  lemma {:induction false} TieKeptAtHalf()
    ensures Determine(['A', 'A', 'B', 'B'], [Entry('A', 1.0), Entry('B', 1.0)], n => 0.5, 0) == Ok(('A', 2))
  {
    var t: Table<char> := [Entry('A', 1.0), Entry('B', 1.0)];
    assert KeysOf(t) == ['A', 'B'];
    assert Count(['A', 'A', 'B', 'B'], 'A') == 2 == Count(['A', 'A', 'B', 'B'], 'B');
    AllTiedLastHighDrawWins(['A', 'A', 'B', 'B'], t, n => 0.5, 0);
  }

  /** [A, A, B, B] over {A, B}: a draw above 0.5 hands the tie to B. */
  lemma {:induction false} TieTakenAboveHalf()
    ensures Determine(['A', 'A', 'B', 'B'], [Entry('A', 1.0), Entry('B', 1.0)], n => 0.75, 0) == Ok(('B', 2))
  {
    var t: Table<char> := [Entry('A', 1.0), Entry('B', 1.0)];
    assert KeysOf(t) == ['A', 'B'];
    assert Count(['A', 'A', 'B', 'B'], 'A') == 2 == Count(['A', 'A', 'B', 'B'], 'B');
    AllTiedLastHighDrawWins(['A', 'A', 'B', 'B'], t, n => 0.75, 0);
  }

  /** [A, A, A, B, B] over {A, B} yields A whatever the draws. */
  lemma {:induction false} ClearMajority(rnd: Draws)
    ensures Determine(['A', 'A', 'A', 'B', 'B'], [Entry('A', 1.0), Entry('B', 1.0)], rnd, 0) == Ok(('A', 1))
  {
    var t: Table<char> := [Entry('A', 1.0), Entry('B', 1.0)];
    assert KeysOf(t) == ['A', 'B'];
    assert Count(['A', 'A', 'A', 'B', 'B'], 'A') == 3;
    assert Count(['A', 'A', 'A', 'B', 'B'], 'B') == 2;
    StrictMajorityWins(['A', 'A', 'A', 'B', 'B'], t, rnd, 0, 0);
  }
}
