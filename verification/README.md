# Lichtenberg growth engine in Dafny

The Lichtenberg-figure simulator grows a tree-like figure one vertex at a
time. Its graph store (`graphs.py`) is a dictionary from vertex key to a
record holding a weight and an ordered neighbour list. On top of it, the
store supports:

- vertex and edge insertion;
- edge listing;
- exhaustive enumeration of simple paths;
- selection of the "easiest" (heaviest) path.

The growth layer (`inverse_square_law_simple.py`) adds a location and a
"burnt" accumulator to every record. One growth step (`make_new_vertex`)
does four things:

- it picks an expansion vertex by a roulette wheel over force magnitudes;
- it proposes a point near that vertex;
- if the point lies near another vertex, it retries; otherwise it adds a new leaf `str(len(graph))` linked to the expansion vertex;
- it reinforces the heaviest path from the expansion vertex to the root `"0"`: burnt and weight go up on the path, and weight decays everywhere else.

The model keeps the source's form. The two classes are Dafny classes
(`Graphs.Graph` and `Lichtenberg.LichtenbergGraph`) whose methods update
the dictionary in place. The dictionary is a `map` together with the
sequence of keys in insertion order. The loops of the imperative
operations (edge listing, the proximity scan, the roulette scan, the two
reinforcement loops) are methods with loop invariants; the recursion of
`find_all_paths` and the `min` of `get_nearest_vertex` are recursive
functions. Each of these methods is proved equal to a function on
values (`Placed`, `TooClose`, `Roulette`, `ActiveStates`, `Grow`), and the
source's promises are proved about those functions.

The modules are:

- `Graphs`: the store, `Graph`, and the one-way edge and edge-listing rules.
- `Paths`: `find_all_paths` as mutual recursion over the neighbour lists. It is proved sound (every result is a simple path along links) and complete (every simple path is listed).
- `Scoring`: the per-path weights, Python's `max` and `list.index`, and `find_shortest_path`. That is the first path of maximum weight. It fails with ValueError when there is no path, and with KeyError when a path runs through a vertex that is not a key.
- `Decimal`: `str()` on naturals, which is injective.
- `Lichtenberg`: the subclass, the proximity test, the roulette scan, the reinforcement rules and the growth step.
- `Wheel`: what the roulette scan returns and why its fallback is unreachable on a fair draw.
- `Growth`: the invariant kept by repeated growth. Keys are `"0".."n-1"` and every vertex links back to the root, so the best-path search never fails. Burnt only grows and stays below 15.005, weights stay positive, and the root's weight never changes. A further lemma covers the order of reinforcements over discarded retries.

The random draws and the force field are inputs. Each growth attempt is an
`Attempt(draw, magnitudes, point)`, and a call of `make_new_vertex` gets a
finite sequence of them. Python exceptions are values:

- `Result`'s `Err(KeyError)` or `Err(ValueError)` for a function;
- an `ok` flag or a `Raised` outcome for a method.

The functions, `Graph.SetWeight`, `Graph.AddEdge` and
`LichtenbergGraph.SetActiveStates` raise before they change anything, so
the state is unchanged when they report an exception. `make_new_vertex` is
different: it adds the new leaf (inverse_square_law_simple.py:126) before
`set_active_states` (:127) can raise, so `MakeNewVertex` may report
`Raised` with the leaf already in the store, exactly as `Settle` keeps the
store it was given when the path search fails.

Documented quirks of the code, which the model follows as written:

- `add_edge` links one way: only the first vertex's neighbour list gains the second (graphs.py:58-63). A new leaf lists its expansion vertex (inverse_square_law_simple.py:126), but the expansion vertex does not list the leaf.
- The base `add_vertex` "does nothing" for a present key (graphs.py:30-32, 36), but the subclass override then resets burnt to 0 and overwrites the location anyway (inverse_square_law_simple.py:55-58), so the subclass insertion is not idempotent.
- The docstring of `pick_expansion_vertex` says it "returns first vertex" when P never reaches zero (inverse_square_law_simple.py:89), but the code returns the integer `0` (:99), which is not a key of the string-keyed graph. The next lookup of that key raises KeyError, so the model reports `Raised(KeyError)`.
- The docstring of `make_new_vertex` says a point near another vertex creates an edge from the growth vertex to that vertex (inverse_square_law_simple.py:115-117), but the code discards the attempt and recurses (:123-124), with no cap other than Python's recursion limit (:118-119). The model bounds the retries by the length of the given attempt sequence.

## Model

| member | source | states |
|---|---|---|
| Graphs.Graph.constructor | graphs.py:12-19 | the graph wraps the given well-formed dictionary with its key order |
| Graphs.Graph.Vertices | graphs.py:21-23 | the keys in insertion order, each exactly once, and exactly the dictionary's keys |
| Graphs.Graph.AddVertex | graphs.py:29-39 | a present key leaves the store unchanged; otherwise exactly that key is added, last in key order, with weight w and the given neighbours, and no other entry changes |
| Graphs.Graph.SetWeight | graphs.py:41-46 | only the named vertex's weight changes (its neighbours and every other vertex are untouched); a missing key is reported (KeyError) and nothing changes |
| Graphs.Graph.AddEdge | graphs.py:48-63 | equal endpoints fail (ValueError); if the first key is present, the second is appended to its neighbours only when not already listed; if it is absent, it is created with neighbours [second] and weight 1; no other entry, the second key's own entry included, changes |
| Graphs.WellFormedSize | inverse_square_law_simple.py:126 | the number of dictionary entries, len(graph), equals the length of the key order |
| Graphs.Graph.Edges | graphs.py:65-74 | no item is listed twice; every item is {u, n} for a key u that lists n as a neighbour; every such (u, n) listing is covered by an item |
| Paths.FindAllPathsFrom | graphs.py:85-103 | every result is the current path extended by a walk from start to end along neighbour links; when the current path repeats nothing and does not hold start, no result repeats a vertex |
| Paths.Explore | graphs.py:96-102 | every path collected over a neighbour list continues the current path through one of those neighbours to the end vertex along links |
| Paths.FindAllPaths | graphs.py:85-103 | every returned path is simple, runs from start to end and follows neighbour links; start == end gives exactly [[start]], even for an absent key or a self-loop; start != end with start absent gives [] |
| Paths.FindAllPathsComplete | graphs.py:85-103 | the enumeration is exhaustive: every simple path from start to end along neighbour links is returned |
| Paths.PathVerticesKnown | graphs.py:93-97 | on a returned path every vertex other than the end is a key |
| Scoring.PathWeight | graphs.py:111 | the sum of the weights along a path: non-negative when every weight is, positive for a non-empty path of positive weights |
| Scoring.PathWeightConcat | graphs.py:111 | the weight of a path is the weight of its first part plus the weight of the rest, for any split |
| Scoring.GetPathWeights | graphs.py:105-111 | succeeds iff every vertex of every path is a key (else KeyError); same length as find_all_paths; entry i is the weight sum of path i |
| Scoring.Max | graphs.py:120 | max() of a non-empty list is one of its elements and no element exceeds it |
| Scoring.IndexOf | graphs.py:120 | list.index() gives the first position holding the value |
| Scoring.FindShortestPath | graphs.py:113-120 | succeeds iff some path exists and all their vertices are keys; ValueError exactly when there is no path; the result is a simple path from start to end whose vertices are keys |
| Scoring.ShortestIsFirstHeaviest | graphs.py:113-120 | the returned path is listed at a position i where no listed path weighs more and every earlier path weighs strictly less, so it is the first path of maximum weight |
| Decimal.NatToString | inverse_square_law_simple.py:126 | str(n) is a non-empty string of decimal digits with no leading zero (only str(0) starts with '0') |
| Decimal.NatToStringValue | inverse_square_law_simple.py:126 | reading the digits of str(n) back as a decimal number gives n |
| Decimal.NatToStringInjective | inverse_square_law_simple.py:126 | different vertex counts give different keys |
| Decimal.ZeroString | inverse_square_law_simple.py:136 | the root key "0" is str(0), the key of the first vertex |
| Lichtenberg.Placed | inverse_square_law_simple.py:51-58 | a new key gets weight w, the given neighbours, burnt 0 and loc pos (the origin when absent) and is appended to the key order; a present key keeps weight and neighbours but has burnt reset to 0 and loc overwritten; no other entry changes |
| Lichtenberg.LichtenbergGraph.constructor | inverse_square_law_simple.py:20-33 | the graph starts from the given dictionary, every record of which has burnt and loc |
| Lichtenberg.LichtenbergGraph.AddVertex | inverse_square_law_simple.py:51-58 | the store after the call is exactly the one Placed describes |
| Lichtenberg.NearestIndex | inverse_square_law_simple.py:38-41 | the position of a key at minimum distance, with every earlier key strictly farther (min() keeps the first minimum) |
| Lichtenberg.GetNearestVertex | inverse_square_law_simple.py:38-41 | a key of the graph at minimum distance from the point, and on ties the first such key in insertion order (every earlier key is strictly farther) |
| Lichtenberg.TooClose | inverse_square_law_simple.py:43-49 | None iff every vertex is at distance at least 1.4 r (the boundary counts as far); otherwise the nearest vertex, which is then itself within 1.4 r |
| Lichtenberg.Truthy | inverse_square_law_simple.py:123 | the truth value of is_too_close's result: False and the empty key are false, every other key is true |
| Lichtenberg.Retries | inverse_square_law_simple.py:123-124 | an attempt at v is discarded only when a vertex other than v lies within 1.4 r of the point and is nearest to it; it is kept only when no vertex is within 1.4 r or a nearest vertex is v itself (or the falsy key "") |
| Lichtenberg.LichtenbergGraph.IsTooClose | inverse_square_law_simple.py:43-49 | the scan with early return gives exactly TooClose |
| Lichtenberg.Crossing | inverse_square_law_simple.py:95-98 | the scan from position i stops, if at all, at a position between i and the end |
| Lichtenberg.Roulette | inverse_square_law_simple.py:91-99 | pick_expansion_vertex as a value: a chosen vertex is one of the graph's keys, and an empty graph always falls back; its first-crossing behaviour is RouletteFirstCrossing |
| Lichtenberg.LichtenbergGraph.PickExpansionVertex | inverse_square_law_simple.py:86-99 | the loop that decrements P gives exactly Roulette on the given magnitudes and draw |
| Wheel.CrossingFirst | inverse_square_law_simple.py:95-98 | the scan stops at the first position where P minus the running sum is at most 0, and runs off the end iff every running sum stays below P |
| Wheel.RouletteFirstCrossing | inverse_square_law_simple.py:91-99 | pick_expansion_vertex returns the first vertex in key order at which u * total minus the running sum of magnitudes is at most 0; it falls back iff there is no such vertex |
| Wheel.RouletteNeverFallsBack | inverse_square_law_simple.py:91-99 | with a non-empty graph, non-negative magnitudes and 0 <= u <= 1, a vertex is always chosen: the fallback is unreachable over exact reals |
| Wheel.RoulettePositiveMagnitude | inverse_square_law_simple.py:94-98 | when P = u * total is positive, the chosen vertex has positive magnitude |
| Lichtenberg.Boost | inverse_square_law_simple.py:138-145 | burnt grows by 0.005 iff it is below 15, so it never decreases and a value below 15.005 stays below it; for a non-root vertex, weight < 1 becomes 1, weight in [1, 2) is multiplied by 1.1 and weight >= 2 is unchanged, so the weight is at least 1 afterwards; the root's weight is unchanged; neighbours and loc are untouched |
| Lichtenberg.Decay | inverse_square_law_simple.py:146-148 | weight drops by exactly 0.025 iff it exceeds 0.025, so a positive weight stays positive; burnt, neighbours and loc are untouched |
| Lichtenberg.Reinforced | inverse_square_law_simple.py:135-148 | reinforcement keeps the key set and keeps burnt and loc on every record |
| Lichtenberg.ActiveStates | inverse_square_law_simple.py:129-148 | on success the key set is unchanged and every record keeps burnt and loc |
| Lichtenberg.LichtenbergGraph.BurnPath | inverse_square_law_simple.py:138-145 | the first loop leaves every path vertex boosted and every other vertex as it was |
| Lichtenberg.LichtenbergGraph.DecayRest | inverse_square_law_simple.py:146-148 | the second loop decays exactly the vertices that are not on the path |
| Lichtenberg.LichtenbergGraph.SetActiveStates | inverse_square_law_simple.py:129-148 | if the best-path search fails, the exception is reported and nothing changes; otherwise the dictionary becomes ActiveStates' result and the key order is unchanged |
| Lichtenberg.Settle | inverse_square_law_simple.py:127 | reinforcement after an attempt keeps the outcome unless it raises |
| Lichtenberg.Grow | inverse_square_law_simple.py:114-127 | a growth step over any attempts leaves a well-formed store whose records all carry burnt and loc |
| Lichtenberg.LichtenbergGraph.MakeNewVertex | inverse_square_law_simple.py:114-127 | the outcome and the new store are exactly Grow's on the old store and the attempts |
| Growth.DescendingWalk | inverse_square_law_simple.py:126 | in a graph of keys "0".."n-1" whose every vertex links to an earlier one, every vertex has a simple path along links to the root |
| Growth.RootedReaches | inverse_square_law_simple.py:129-136 | in such a graph the path list from any vertex to "0" is non-empty, find_shortest_path succeeds and set_active_states raises nothing |
| Growth.ReinforceKeeps | inverse_square_law_simple.py:135-148 | reinforcing along a path to the root keeps the key order and the links, keeps weights positive and burnt in [0, 15.005), never lowers burnt and leaves the root's weight unchanged |
| Growth.SettleKeeps | inverse_square_law_simple.py:127 | reinforcement from a vertex of such a graph raises nothing, keeps the outcome and the key order, and keeps the shape and the bounds |
| Growth.FreshKey | inverse_square_law_simple.py:126 | str(len(graph)) is not yet a key |
| Growth.CommitKeeps | inverse_square_law_simple.py:126 | the new leaf gets the fresh key str(n), comes last in key order, has weight 1, burnt 0, loc p and neighbours [v]; the keys become "0".."n" and every vertex still links back |
| Growth.GrowKeepsRooted | inverse_square_law_simple.py:121-127 | on such a graph with fair draws, make_new_vertex never raises and keeps the shape and the bounds; when every attempt was discarded nothing changes; otherwise exactly the key str(n) is added with a single neighbour from the old graph and the location of one of the attempts' points, while old vertices keep their neighbours and locations |
| Growth.GrowUnrolled | inverse_square_law_simple.py:123-127 | when attempts 0..k-1 are discarded at v0..v(k-1) and attempt k commits at v, the result is the commit, then reinforcement from v, then from v(k-1) down to v0: once per attempt, innermost first |

## Left out

- `force`, `net_force`, `net_forces` and `pick_expansion_point` (inverse_square_law_simple.py:60-84 and 101-112): these are floating-point numerics (`**1.5`, `norm`, and normalisation by a possibly zero norm). The force magnitudes and the proposed point are inputs of each attempt.
- `random.uniform`: each draw is an input. The unbounded retry recursion of `make_new_vertex` runs over a finite sequence of attempts. When the sequence runs out, the outcome is `Exhausted` and nothing changes. This outcome exists only in the model. The Python recursion limit is not modelled.
- Float rounding: weights, burnt, magnitudes and positions are exact reals. Distances are compared squared against (1.4 r)², which is equivalent over exact reals. Python's int/float mixture (weight 1 beside 1.1 * weight) is not distinguished.
- The `__main__` blocks of both files (rendering, file output, timing) and `Graph.__str__`.
- `locations()` and `return_current_graph()` are plain accessors; nothing in either file calls them.
- The default dictionary of `LichtenbergGraph.__init__` refers to an unqualified `r` and would raise NameError. The model starts from a given dictionary. The base class's default, the empty dictionary, is the empty `Store`.
- Python truthiness: keys are strings, so `is_too_close`'s result is false only when it returns False, or when it returns the key "" (`Truthy`). The integer key 0 case does not arise.
- Aliasing: `add_vertex` stores the caller's neighbour list object itself, and a later `append` through `add_edge` would show through every alias. The model stores neighbour lists as values.
- `np.setdiff1d` sorts the off-path keys. The decay loop visits them in key order instead, which yields the same dictionary because each vertex is updated independently (`DecayedAll`).
- `add_edge` takes an edge of exactly two components: the model's `first` and `second` are the order in which set iteration yields them. An edge with more than two distinct elements raises ValueError in the source and is not modelled.
- Graphs.Graph.Edges: states which items are listed and that none repeats, not the order in which they are listed.
- Lichtenberg.GetNearestVertex: requires a non-empty graph whose records all carry `loc`. `is_too_close` only calls it after finding a vertex within reach, and every record of the subclass carries `loc`.
- Lichtenberg.LichtenbergGraph.MakeNewVertex: when the inner attempts end `Exhausted`, the outer attempt does not reinforce. That case has no counterpart in the source.
