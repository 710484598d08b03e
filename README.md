# platypus terrain generator, modelled in Dafny

platypus fills a rectangular terrain with the values of a weight table and
then smooths it so that like values clump together. It has two forms:

- the library entry point `generate` in `platypus/__init__.py`;
- the older class `TerrainGenerator` in `platypus.py`.

Both forms work in four steps:

1. **Blank.** Make a `height` x `width` grid of unset cells. The cell type's
   default value stands in for Python's `None`. That value may itself be a
   key, which does no harm: the noise fill overwrites every cell.
2. **Noise.** Fill every cell, row by row, with a weighted random choice. One
   draw in [0, 1) is scaled by the total weight. The table is then walked in
   insertion order until the running threshold exceeds the scaled draw.
3. **Smooth.** Visit every cell once, in a shuffled row-major order. Each visit:
   - collects the cell's neighbours (3 at a corner, 5 on an edge, 8 inside);
   - lets them vote;
   - writes the winner back at once, so later visits read the updated grid.
4. **Vote.** The vote counts each key, then scans the keys in table order.
   - A strictly larger count takes over.
   - An equal count takes over only when a fresh draw exceeds 0.5. The first
     key, compared with itself, also counts as a tie.
   - A neighbour that is not a key raises `KeyError`.
   - A table without keys raises `IndexError` only when there are no
     neighbours at all. Otherwise the first neighbour raises `KeyError`, and
     every neighbour list of a terrain has 3, 5 or 8 entries.

The library form checks the size first and raises `ValueError` below 3 x 3.
The class form does no check. It can also smooth in plain row-major order
(`smooth_index`).

## Modules

- `basics.dfy`: errors, the weight table as an ordered list of distinct keys,
  coordinates, grids, the draw stream, and the value view `Cells` of a
  terrain buffer.
- `sampler.dfy`: weighted choice (`_choose_value`, `choose_value`).
- `neighbours.dfy`: neighbour lookup (`_get_neighbors`, `get_neighbors`). It
  holds the nine cases exactly as the code lists them.
- `majority.dfy`: the plurality vote (`_determine_value`, `determine_value`).
- `indices.dfy`: the row-major coordinate list and its shuffle
  (`_generate_indices_list`, `generate_indices_list`).
- `smoothing.dfy`: smoothing as a value-level fold over a visit order, and
  repeated passes.
- `platypus.dfy`: the library entry point and its helpers, as methods on an
  `array2` terrain. The noise-fill and smoothing methods and the entry point
  are each proved equal to the value-level definitions; `CreateBlank` only
  promises a fresh buffer of the right shape.
- `terrain_generator.dfy`: the class `TerrainGenerator`. Its `width`,
  `height` and `values` are fields fixed by the constructor.

## How the model treats randomness and numbers

- **Draws.** `random.random()` becomes a stream `rnd: nat -> real` with a
  cursor. Every method returns the cursor of the next unused draw, so the
  draws are consumed exactly as the code consumes them:
  - noise cell (i, j) uses draw `pos + i * w + j`;
  - a vote uses one draw per tie.
- **Shuffles.** Each `random.shuffle` becomes a given permutation of the
  positions of the row-major list, one per pass.
- **Weights.** Weights are exact reals.

## Behaviour worth knowing

- **Tie rule.** A tie draw strictly above 0.5 replaces the current majority,
  so a draw of exactly 0.5 keeps it. A draw is used up even when the first
  key is compared with itself.
- **Tie bias.** Ties are settled pairwise while scanning, so with k tied keys
  the later keys in table order are favoured; the winner is not uniform
  among them (`Majority.AllTiedLastHighDrawWins`).
- **Weights.** Nothing checks for an empty table or a non-positive total
  weight. With non-negative weights, an empty or all-zero table makes the
  choice fall through to `None`. With weights of mixed or negative sign, a
  non-positive total can still select a key on some or all draws
  (`Sampler.MixedSignsChoose`, `Sampler.NegativeWeightsChoose`).
- **Neighbour outside the table.** The vote raises Python's `KeyError`.
- **Size check.** The library raises `ValueError` for a side below 3, with the
  attempted size in the message, before it allocates anything. The class form
  does no size check at all.

## Model

| member | source | states |
|---|---|---|
| Sampler.FirstAbove | platypus/__init__.py:127-133 | a found index lies at or after the start, and its running threshold exceeds the choice |
| Sampler.Pick | platypus/__init__.py:124-133 | the definition of the threshold walk: the key of the first entry whose running threshold exceeds the choice, else None; a picked value is a key, and a choice below the total of a non-empty table is always picked |
| Sampler.Choose | platypus/__init__.py:115-133 | the definition of the weighted choice: the draw scaled by the total weight, then the threshold walk; a chosen value is a key |
| Sampler.WalkThresholds | platypus/__init__.py:123-133 | the threshold loop returns the key of the first entry whose running threshold exceeds the choice, or None when the loop falls through |
| Sampler.ChooseValue | platypus/__init__.py:101-133 | the two loops compute the total, scale the draw and walk the thresholds; with a positive total and a draw in [0, 1) the result is always a key of the table |
| Sampler.FirstAboveFinds | platypus/__init__.py:127-133 | when the choice is below the total, the walk always returns before falling through |
| Sampler.ScaledDrawBelow | platypus/__init__.py:121 | a draw in [0, 1) scaled by a positive total lies in [0, total) |
| Sampler.ChooseIsKey | platypus/__init__.py:115-133 | a positive total and a draw in [0, 1) always select some key of the table |
| Sampler.FirstAboveFrom | platypus/__init__.py:127-133 | the walk from position i returns k exactly when k is the first index at or after i whose running threshold exceeds the choice |
| Sampler.ChooseIsFirstAbove | platypus/__init__.py:124-133 | the chosen entry is exactly the first in table order whose cumulative weight exceeds the scaled draw |
| Sampler.SumMonotone | platypus/__init__.py:116-118 | with positive weights, running totals strictly increase along the table |
| Sampler.MixedSignsChoose | platypus/__init__.py:115-133 | with weights 2 and -3 (total -1) and with weights 1 and -1 (total 0), the first key is chosen: a non-positive total does not by itself make the choice fall through |
| Sampler.NegativeWeightsChoose | platypus/__init__.py:115-133 | with weights -0.1 and -0.2 (total -0.3), a draw of 0.5 picks the first key and a draw of 0 falls through to None |
| Sampler.ChooseInterval | platypus/__init__.py:115-133 | with positive weights, entry k is chosen exactly when the scaled draw lies in [sum of the earlier weights, that sum plus weight k): each key owns an interval as wide as its weight |
| Neighbours.NeighborCoords | platypus/__init__.py:200-272 | every listed cell is distinct, adjacent to the visited cell and never at a negative index; on a grid of at least 2 x 2 there are 3, 5 or 8 of them, all in range, and every adjacent in-range cell is listed; with a single row or column one of the first two lies out of range |
| Neighbours.NeighborValues | platypus/__init__.py:190-272 | on a rectangular grid of at least 2 x 2 the lookup succeeds with 3, 5 or 8 values; on a single row or column it raises IndexError; value k is the current value of the k-th listed cell; the class's `get_neighbors` (platypus.py:145-227) repeats these nine cases and is modelled by the same function |
| Neighbours.NeighborsInAlphabet | platypus/__init__.py:190-272 | on a terrain whose cells are all keys, every neighbour value is a key |
| Neighbours.CornerNeighbors | platypus/__init__.py:201-206 | on a 3 x 3 grid, cell (0, 0) yields exactly the values at (0, 1), (1, 1) and (1, 0), in that order |
| Neighbours.InteriorNeighbors | platypus/__init__.py:260-269 | on a 5 x 5 grid, cell (2, 2) yields exactly its eight surrounding cells, in the code's order |
| Majority.Scan | platypus/__init__.py:291-303 | the scan ends on a key whose count no key exceeds, and uses at most one draw per remaining key |
| Majority.Determine | platypus/__init__.py:275-306 | fails exactly when a neighbour is not a key or the table is empty; the exception is KeyError when some neighbour is not a key (always the case for an empty table with neighbours), and IndexError only for an empty table with no neighbours; otherwise returns a key whose count is at least every key's count, after using between 1 and the number of keys draws |
| Majority.CountNeighbors | platypus/__init__.py:283-289 | the tally fails exactly when some neighbour is not a key; otherwise it holds an entry for every key and nothing else, and each entry is that key's number of occurrences |
| Majority.DetermineValue | platypus/__init__.py:275-306 | the tally loop and the scan loop together compute the vote `Determine` describes, errors included |
| Majority.FindMajority | platypus/__init__.py:291-306 | the scan loop over the tallied keys ends on the same key and draw cursor as `Scan` |
| Majority.StrictMajorityWins | platypus/__init__.py:294-299 | a key whose count strictly exceeds every other key's count wins, whatever the draws |
| Majority.AllTiedLastHighDrawWins | platypus/__init__.py:291-303 | when every key ties, each key uses one draw, and the winner is the last key whose draw exceeded 0.5 (the first key when none did); later keys are favoured |
| Majority.TieKeptAtHalf | platypus/__init__.py:301-303 | [A, A, B, B] over {A, B} with every draw exactly 0.5 yields A after two draws |
| Majority.TieTakenAboveHalf | platypus/__init__.py:301-303 | [A, A, B, B] over {A, B} with every draw 0.75 yields B after two draws |
| Majority.ClearMajority | platypus/__init__.py:284-306 | [A, A, A, B, B] over {A, B} yields A for every draw stream |
| Indices.Row | platypus/__init__.py:180-181 | the inner loop appends (i, 0), ..., (i, w-1) in order |
| Indices.RowMajor | platypus/__init__.py:174-181 | the nested loops yield h * w coordinates, all on the grid |
| Indices.RowsFrom | platypus.py:90-92 | the rows a row-major visit has still to do all lie on the grid |
| Indices.RowMajorSplit | platypus.py:89-92 | the rows already visited followed by the rows still to visit make up the whole row-major order |
| Indices.Permute | platypus/__init__.py:184 | the shuffle puts entry perm[k] of the list at position k |
| Indices.RowMajorCoords | platypus/__init__.py:175-181 | the row-major list holds exactly the coordinates of the grid, each once |
| Indices.PermutationCovers | platypus/__init__.py:184 | a permutation of 0 .. n-1 contains every index below n |
| Indices.PermuteKeeps | platypus/__init__.py:184 | shuffling keeps exactly the same entries and keeps them distinct |
| Indices.ShuffledCoords | platypus/__init__.py:168-187 | the shuffled list holds every coordinate of the grid exactly once |
| Indices.ShuffledIndices | platypus/__init__.py:168-187 | the nested append loops followed by the shuffle yield the shuffled row-major list |
| Smoothing.Store | platypus/__init__.py:162 | the write changes the visited cell to the new value and no other cell |
| Smoothing.SmoothCell | platypus/__init__.py:156-162 | a visit changes only the visited cell, to a key whose count among the current neighbours is the largest, and uses at least one draw |
| Smoothing.SmoothAlong | platypus/__init__.py:151-165 | a pass keeps the grid's shape and leaves every cell outside the visit order untouched |
| Smoothing.SmoothAlongConcat | platypus/__init__.py:154-162 | visiting a + b is visiting a, then visiting b from the grid and the draw where a stopped |
| Smoothing.SmoothCellKeepsTerrain | platypus/__init__.py:159-162 | on a terrain of keys of at least 2 x 2, a visit cannot fail and leaves a terrain of keys |
| Smoothing.SmoothAlongKeepsTerrain | platypus/__init__.py:151-165 | on a terrain of keys of at least 2 x 2, a pass in any order cannot fail and leaves a terrain of keys |
| Smoothing.NarrowTerrainFails | platypus/__init__.py:200-221 | with a single row or column, the first visit raises IndexError |
| Smoothing.UniformIsStable | platypus/__init__.py:151-165 | a terrain of at least 2 x 2 holding one key everywhere is left exactly as it is (a single row or column raises IndexError instead, see `NarrowTerrainFails`) |
| Smoothing.UnanimousVote | platypus/__init__.py:294-306 | neighbours that all hold the same key elect it |
| Smoothing.UniformMultiset | platypus/__init__.py:287-289 | a list holding one value everywhere tallies to that value with its length |
| Smoothing.Passes | platypus/__init__.py:62-63 | repeated passes keep the grid's shape and never move the draw cursor backwards |
| Smoothing.PassesKeepTerrain | platypus/__init__.py:62-63 | any number of passes over a terrain of keys of at least 2 x 2 succeeds and leaves a terrain of keys |
| Smoothing.PassesNarrowFail | platypus/__init__.py:62-63 | on a single row or column with cells, the first pass raises IndexError |
| Smoothing.PassesEmpty | platypus/__init__.py:62-63 | a grid without cells passes through any number of passes unchanged, using no draw |
| Platypus.NoiseCell | platypus/__init__.py:98 | the value a cell is filled with is the weighted choice for its draw, and it is a key |
| Platypus.NoiseGrid | platypus/__init__.py:94-98 | the noise is an h x w terrain of keys whose cell (i, j) is the weighted choice for draw pos + i * w + j |
| Platypus.CreateBlank | platypus/__init__.py:69-83 | a fresh grid of `height` rows of `width` cells (none for a negative side) |
| Platypus.CreateNoise | platypus/__init__.py:86-98 | the nested loops fill the buffer with exactly the noise grid, and use one draw per cell |
| Platypus.FillRow | platypus/__init__.py:96-98 | the inner loop fills row i with its noise, leaves every other row as it was, and ends on the first draw of the next row |
| Platypus.SmoothInOrder | platypus/__init__.py:154-162 | the visit loop on the buffer ends with the grid and draw cursor of the value-level pass, or raises the same exception |
| Platypus.SmoothCellInPlace | platypus/__init__.py:156-162 | one visit on the buffer does exactly the first step of the value-level pass over the remaining cells; when the visit raises, the terrain is left unchanged |
| Platypus.Smooth | platypus/__init__.py:136-165 | one pass over the buffer equals the value-level pass along the shuffled row-major order |
| Platypus.PassShuffles | platypus/__init__.py:62 | `range(smoothness)` asks for max(smoothness, 0) passes, pass k using shuffle k |
| Platypus.Pipeline | platypus/__init__.py:56-63 | the definition of noise from draw 0 on followed by the smoothing passes; a result keeps the h x w shape and comes after the h * w noise draws |
| Platypus.PipelineOutcome | platypus/__init__.py:56-63 | noise followed by the passes fails exactly when there is smoothing to do on a single row or column with cells, and then with IndexError; otherwise it yields a terrain of keys |
| Platypus.PipelineWithoutSmoothing | platypus/__init__.py:59-63 | with no smoothing, the result is exactly the noise fill |
| Platypus.Generated | platypus/__init__.py:51-66 | the definition of the library entry point on values: ValueError with the attempted size when a side is below 3, else the pipeline's terrain; a result has `height` rows of `width` cells |
| Platypus.GeneratedOutcome | platypus/__init__.py:51-66 | the entry point raises exactly when a side is below 3, and then ValueError with the attempted size; otherwise it returns `height` rows of `width` keys |
| Platypus.SingleValueFillsTerrain | platypus/__init__.py:4-66 | a table with a single key of positive weight yields a terrain holding that key everywhere, for any smoothness |
| Platypus.SmoothRepeatedly | platypus/__init__.py:62-63 | the smoothing loop on the buffer ends as the value-level passes do, or raises the same exception |
| Platypus.SmoothStep | platypus/__init__.py:63 | one turn of the loop does exactly the first of the remaining value-level passes |
| Platypus.Generate | platypus/__init__.py:4-66 | the entry point checks the size before allocating (nothing else is required of a size below 3), then returns a fresh `height` x `width` buffer holding exactly the value-level result, or raises the same exception |
| Generator.TerrainGenerator.constructor | platypus.py:5-10 | width and height are split from the dimensions pair, and the table is kept |
| Generator.TerrainGenerator.CreateBlank | platypus.py:31-40 | a fresh grid of the generator's height and width |
| Generator.TerrainGenerator.CreateNoise | platypus.py:42-56 | the buffer is filled with exactly the noise grid, one draw per cell |
| Generator.TerrainGenerator.ChooseValue | platypus.py:58-81 | the same weighted choice as the library: a key of the table whenever the total is positive and the draw lies in [0, 1) |
| Generator.TerrainGenerator.DetermineValue | platypus.py:229-258 | the same vote as the library over the generator's table, errors included |
| Generator.TerrainGenerator.GenerateIndicesList | platypus.py:125-143 | the generator's row-major coordinate list shuffled by the given permutation |
| Generator.TerrainGenerator.SmoothIndex | platypus.py:83-100 | visiting the buffer row by row and column by column equals the value-level pass along the plain row-major order |
| Generator.TerrainGenerator.SmoothRow | platypus.py:92-97 | the inner loop does exactly the visits of row i of that pass |
| Generator.TerrainGenerator.SmoothRandom | platypus.py:102-123 | one pass over a buffer of the generator's size equals the value-level pass along the shuffled row-major order |
| Generator.TerrainGenerator.SmoothRandomRepeatedly | platypus.py:24-26 | the smoothing loop ends as the value-level passes do, or raises the same exception |
| Generator.TerrainGenerator.SmoothRandomStep | platypus.py:26 | one turn of the loop does exactly the first of the remaining value-level passes |
| Generator.TerrainGenerator.Generate | platypus.py:12-29 | without any size check, the result equals the library pipeline at the generator's size: a fresh buffer holding the smoothed noise, or the same exception (IndexError on a single row or column with smoothing to do) |

## Left out

- `display_terrain` (platypus/__init__.py:309-321) and `main` with its
  module-level call (platypus.py:261-275): they only print to the console.
- The `random` module. Draws and shuffles are inputs. Nothing is said about
  their distribution, so statistical claims are not modelled. Two examples:
  how often each value appears, and how uniform a shuffle is.
- Floating-point rounding in the running sums: weights are exact reals.
- Ragged lists of lists: terrains are rectangular `array2` buffers.
- Zero or negative total weight. With non-negative weights, an empty or
  all-zero table makes the weighted choice fall through to `None`, which the
  code stores; the first later vote over such a cell raises `KeyError`, and
  with no smoothing the grid is returned with `None` in it. With weights of
  mixed or negative sign, a non-positive total can still select a key, or fall
  through on some draws. The weighted choice itself (`Sampler.ChooseValue`) models every
  one of these cases; the members below require a positive total instead.
- Platypus.CreateNoise: requires a positive total weight (see above).
- Platypus.FillRow: requires a positive total weight (see above).
- Platypus.Generate: requires a positive total weight once the size check has
  passed (see above).
- Generator.TerrainGenerator.CreateNoise: requires a positive total weight
  (see above).
- Generator.TerrainGenerator.Generate: requires a positive total weight (see
  above).
- State after an exception in a smoothing loop. The exception itself is
  described, but a loop that raises part-way has already rewritten earlier
  cells, and the members below do not describe the terrain it leaves. (A
  single visit, `Platypus.SmoothCellInPlace`, raises before it writes and is
  proved to leave the terrain unchanged.)
- Platypus.SmoothInOrder: the terrain after an exception is not described.
- Platypus.Smooth: the terrain after an exception is not described.
- Platypus.SmoothRepeatedly: the terrain after an exception is not described.
- Platypus.SmoothStep: the terrain after an exception is not described.
- Generator.TerrainGenerator.SmoothIndex: the terrain after an exception is
  not described.
- Generator.TerrainGenerator.SmoothRow: the terrain after an exception is not
  described.
- Generator.TerrainGenerator.SmoothRandom: the terrain after an exception is
  not described.
- Generator.TerrainGenerator.SmoothRandomRepeatedly: the terrain after an
  exception is not described.
- Generator.TerrainGenerator.SmoothRandomStep: the terrain after an exception
  is not described.
- Generator.TerrainGenerator.SmoothRandom requires a terrain of the
  generator's own size. The code builds the coordinate list from the
  generator's size but reads the neighbours from whatever terrain it is
  given, so a mismatched terrain is not modelled.
- Return values of the in-place methods:
  - the Python methods return the terrain list they were given;
  - the Dafny methods update the `array2` in place and return the cursor of
    the next unused draw instead.
