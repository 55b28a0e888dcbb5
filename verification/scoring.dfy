/**
 Path scoring (graphs.py, get_path_weights and find_shortest_path): each
 enumerated path is scored by the sum of its vertices' weights, and the
 "easiest" path is the first one of maximum score.
 */
module Scoring {
  import opened Graphs
  import opened Paths

  /** Every vertex of `q` is a key, so that looking up its weight cannot fail. */
  ghost predicate Known(d: Dict, q: seq<Key>) {
    forall v :: v in q ==> v in d
  }

  ghost predicate AllKnown(d: Dict, paths: seq<seq<Key>>) {
    forall i :: 0 <= i < |paths| ==> Known(d, paths[i])
  }

  /** The sum of the weights along `q`. */
  function PathWeight(d: Dict, q: seq<Key>): (w: real)
    requires Known(d, q)
    ensures (forall v :: v in q ==> d[v].weight >= 0.0) ==> w >= 0.0
    ensures (forall v :: v in q ==> d[v].weight > 0.0) && q != [] ==> w > 0.0
  {
    if q == [] then 0.0 else d[q[0]].weight + PathWeight(d, q[1..])
  }

  /** The weight of a path is the sum over any split of it into two parts. */
  lemma {:induction false} PathWeightConcat(d: Dict, a: seq<Key>, b: seq<Key>)
    requires Known(d, a) && Known(d, b)
    ensures Known(d, a + b) && PathWeight(d, a + b) == PathWeight(d, a) + PathWeight(d, b)
  {
    if a == [] {
      assert a + b == b;
    } else {
      assert (a + b)[0] == a[0] && (a + b)[1..] == a[1..] + b;
      PathWeightConcat(d, a[1..], b);
    }
  }

  /**
   The weights of the paths from `s` to `e`, index for index. Looking up a
   vertex that is not a key raises KeyError.
   */
  function GetPathWeights(d: Dict, s: Key, e: Key): (r: Result<seq<real>>)
    ensures r.Ok? <==> AllKnown(d, FindAllPaths(d, s, e))
    ensures r.Err? ==> r.failure == KeyError
    ensures r.Ok? ==> |r.value| == |FindAllPaths(d, s, e)|
    ensures r.Ok? ==> forall i :: 0 <= i < |r.value| ==> r.value[i] == PathWeight(d, FindAllPaths(d, s, e)[i])
  {
    var paths := FindAllPaths(d, s, e);
    if forall i :: 0 <= i < |paths| ==> forall v :: v in paths[i] ==> v in d then
      Ok(seq(|paths|, i requires 0 <= i < |paths| => PathWeight(d, paths[i])))
    else
      Err(KeyError)
  }

  /** Python's max() over a non-empty list, scanning left to right. */
  function Max(ws: seq<real>): (m: real)
    requires |ws| > 0
    ensures m in ws
    ensures forall i :: 0 <= i < |ws| ==> ws[i] <= m
  {
    if |ws| == 1 then ws[0]
    else
      var m := Max(ws[..|ws| - 1]);
      assert forall i :: 0 <= i < |ws| - 1 ==> ws[..|ws| - 1][i] == ws[i];
      if ws[|ws| - 1] > m then ws[|ws| - 1] else m
  }

  /** Python's list.index(): the position of the first occurrence of `x`. */
  function IndexOf(ws: seq<real>, x: real): (i: nat)
    requires x in ws
    ensures i < |ws| && ws[i] == x
    ensures forall j :: 0 <= j < i ==> ws[j] != x
  {
    if ws[0] == x then 0 else 1 + IndexOf(ws[1..], x)
  }

  /**
   find_shortest_path: the first path of maximum total weight. No path at
   all makes max() raise ValueError; a path through a non-key raises
   KeyError while the weights are computed.
   */
  function FindShortestPath(d: Dict, s: Key, e: Key): (r: Result<seq<Key>>)
    ensures r.Ok? <==> FindAllPaths(d, s, e) != [] && AllKnown(d, FindAllPaths(d, s, e))
    ensures r == Err(ValueError) <==> FindAllPaths(d, s, e) == []
    ensures r.Ok? ==> SimplePath(d, r.value, s, e) && Known(d, r.value)
  {
    match GetPathWeights(d, s, e)
    case Err(f) => Err(f)
    case Ok(ws) =>
      if ws == [] then Err(ValueError)
      else
        var i := IndexOf(ws, Max(ws));
        ChosenPath(d, s, e, ws);
        Ok(FindAllPaths(d, s, e)[i])
  }

  /**
   The path find_shortest_path returns is the first of maximum total
   weight among those find_all_paths lists.
   */
  lemma ShortestIsFirstHeaviest(d: Dict, s: Key, e: Key) returns (i: nat)
    requires FindShortestPath(d, s, e).Ok?
    ensures var paths := FindAllPaths(d, s, e);
            && i < |paths| && paths[i] == FindShortestPath(d, s, e).value
            && (forall j :: 0 <= j < |paths| ==> PathWeight(d, paths[j]) <= PathWeight(d, paths[i]))
            && (forall j :: 0 <= j < i ==> PathWeight(d, paths[j]) < PathWeight(d, paths[i]))
  {
    var ws := GetPathWeights(d, s, e).value;
    ChosenPath(d, s, e, ws);
    i := IndexOf(ws, Max(ws));
  }

  /** The path at the first index of the maximum weight is a simple path of known vertices and is a heaviest one. */
  lemma ChosenPath(d: Dict, s: Key, e: Key, ws: seq<real>)
    requires GetPathWeights(d, s, e) == Ok(ws) && ws != []
    ensures var paths := FindAllPaths(d, s, e);
            var i := IndexOf(ws, Max(ws));
            && i < |paths| && SimplePath(d, paths[i], s, e) && Known(d, paths[i])
            && (forall j :: 0 <= j < |paths| ==> PathWeight(d, paths[j]) <= PathWeight(d, paths[i]))
            && (forall j :: 0 <= j < i ==> PathWeight(d, paths[j]) < PathWeight(d, paths[i]))
  {
    var paths := FindAllPaths(d, s, e);
    FirstHeaviest(d, paths, ws);
    var i := IndexOf(ws, Max(ws));
    ListedPath(d, s, e, i);
  }

  lemma ListedPath(d: Dict, s: Key, e: Key, i: nat)
    requires i < |FindAllPaths(d, s, e)| && AllKnown(d, FindAllPaths(d, s, e))
    ensures SimplePath(d, FindAllPaths(d, s, e)[i], s, e) && Known(d, FindAllPaths(d, s, e)[i])
  {
    var paths := FindAllPaths(d, s, e);
    assert paths[i] in paths;
  }

  /** The first index of the maximum weight names a path no other path outweighs, and every earlier path weighs less. */
  lemma FirstHeaviest(d: Dict, paths: seq<seq<Key>>, ws: seq<real>)
    requires AllKnown(d, paths) && |ws| == |paths| > 0
    requires forall j :: 0 <= j < |ws| ==> ws[j] == PathWeight(d, paths[j])
    ensures var i := IndexOf(ws, Max(ws));
            && i < |paths|
            && (forall j :: 0 <= j < |paths| ==> PathWeight(d, paths[j]) <= PathWeight(d, paths[i]))
            && (forall j :: 0 <= j < i ==> PathWeight(d, paths[j]) < PathWeight(d, paths[i]))
  {
  }
}
