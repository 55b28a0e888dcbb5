/**
 The growth rules of the Lichtenberg-figure simulator
 (inverse_square_law_simple.py): vertices carry a location and a "burnt"
 accumulator besides weight and neighbours; a growth step picks an
 expansion vertex by roulette over the force magnitudes, either retries
 (when the proposed point lies near another vertex) or commits a new leaf,
 and then reinforces the best path from the expansion vertex to the root.

 The force field and the random draws are inputs: each attempt supplies the
 draw u, the force magnitudes in key order and the proposed point.
 */
module Lichtenberg {
  import opened Graphs
  import opened Paths
  import opened Scoring
  import opened Decimal

  /** The root: every reinforcement path ends here. */
  const Root: Key := "0"

  /** The class attribute r, the minimum growth distance. */
  const R: real := 1.0

  /** The square of the proximity radius 1.4 r. */
  const Reach2: real := (1.4 * R) * (1.4 * R)

  /** Every record carries the two keys the growth rules add. */
  ghost predicate Full(d: Dict) {
    forall k :: k in d ==> d[k].burnt.Some? && d[k].loc.Some?
  }

  function LocOf(d: Dict, k: Key): Point
    requires k in d && d[k].loc.Some?
  {
    d[k].loc.value
  }

  /** Squared Euclidean distance; the source's norm compared against 1.4 r. */
  function Dist2(a: Point, b: Point): real {
    (a.x - b.x) * (a.x - b.x) + (a.y - b.y) * (a.y - b.y)
  }

  function OrOrigin(pos: Option<Point>): Point {
    match pos
    case None => Point(0.0, 0.0)
    case Some(p) => p
  }

  /**
   The subclass's add_vertex: the base insertion (a no-op for an existing
   key), after which burnt is set to 0 and loc to `pos` (the origin when
   absent) whether or not the key was new.
   */
  function Placed(s: Store, v: Key, neigh: seq<Key>, pos: Option<Point>, w: real): (r: Store)
    ensures r.dict.Keys == s.dict.Keys + {v}
    ensures v !in s.dict ==> r.order == s.order + [v] && r.dict[v] == Vertex(w, neigh, Some(0.0), Some(OrOrigin(pos)))
    ensures v in s.dict ==> && r.order == s.order
                            && r.dict[v].weight == s.dict[v].weight
                            && r.dict[v].neighbors == s.dict[v].neighbors
                            && r.dict[v].burnt == Some(0.0) && r.dict[v].loc == Some(OrOrigin(pos))
    ensures forall k :: k in s.dict && k != v ==> r.dict[k] == s.dict[k]
    ensures WellFormed(s) ==> WellFormed(r)
    ensures Full(s.dict) ==> Full(r.dict)
  {
    var inserted := if v in s.dict then s else Store(s.dict[v := Vertex(w, neigh, None, None)], s.order + [v]);
    var x := inserted.dict[v];
    Store(inserted.dict[v := x.(burnt := Some(0.0), loc := Some(OrOrigin(pos)))], inserted.order)
  }

  ghost predicate Located(d: Dict, keys: seq<Key>) {
    forall k :: k in keys ==> k in d && d[k].loc.Some?
  }

  /**
   The position in `keys` of the key nearest to `p`; on ties the first one,
   as min() with a key function keeps the first minimum it meets.
   */
  function NearestIndex(d: Dict, keys: seq<Key>, p: Point): (i: nat)
    requires |keys| > 0 && Located(d, keys)
    ensures i < |keys|
    ensures forall j :: 0 <= j < |keys| ==> Dist2(LocOf(d, keys[i]), p) <= Dist2(LocOf(d, keys[j]), p)
    ensures forall j :: 0 <= j < i ==> Dist2(LocOf(d, keys[j]), p) > Dist2(LocOf(d, keys[i]), p)
  {
    if |keys| == 1 then 0
    else
      var front := keys[..|keys| - 1];
      var i := NearestIndex(d, front, p);
      assert forall j :: 0 <= j < |front| ==> front[j] == keys[j];
      var last := |keys| - 1;
      if Dist2(LocOf(d, keys[last]), p) < Dist2(LocOf(d, keys[i]), p) then last else i
  }

  /** get_nearest_vertex: a key of least distance to `p`, first in key order on ties. */
  function GetNearestVertex(s: Store, p: Point): (k: Key)
    requires WellFormed(s) && Full(s.dict) && |s.order| > 0
    ensures k in s.dict
    ensures forall k' :: k' in s.dict ==> Dist2(LocOf(s.dict, k), p) <= Dist2(LocOf(s.dict, k'), p)
    ensures exists i :: && 0 <= i < |s.order| && s.order[i] == k
                        && forall j :: 0 <= j < i ==> Dist2(LocOf(s.dict, s.order[j]), p) > Dist2(LocOf(s.dict, k), p)
  {
    var i := NearestIndex(s.dict, s.order, p);
    assert forall k' :: k' in s.dict ==> exists j :: 0 <= j < |s.order| && s.order[j] == k';
    s.order[i]
  }

  /**
   is_too_close as a value: None exactly when every vertex is at distance at
   least 1.4 r (the boundary counts as far); otherwise the nearest vertex,
   which is then itself within 1.4 r.
   */
  function TooClose(s: Store, p: Point): (r: Option<Key>)
    requires WellFormed(s) && Full(s.dict)
    ensures r.None? <==> forall k :: k in s.dict ==> Dist2(LocOf(s.dict, k), p) >= Reach2
    ensures r.Some? ==> && |s.order| > 0 && r.value == GetNearestVertex(s, p)
                        && r.value in s.dict && Dist2(LocOf(s.dict, r.value), p) < Reach2
  {
    if exists i :: 0 <= i < |s.order| && Dist2(LocOf(s.dict, s.order[i]), p) < Reach2 then
      Some(GetNearestVertex(s, p))
    else
      assert forall k :: k in s.dict ==> exists j :: 0 <= j < |s.order| && s.order[j] == k;
      None
  }

  /** Python truthiness of is_too_close's result: False, or a key other than "". */
  predicate Truthy(near: Option<Key>): (b: bool)
    ensures near == None ==> !b
    ensures near == Some("") ==> !b
    ensures forall k :: near == Some(k) && k != "" ==> b
  {
    near.Some? && near.value != ""
  }

  function Sum(xs: seq<real>): real {
    if xs == [] then 0.0 else xs[0] + Sum(xs[1..])
  }

  /**
   The roulette scan from position `i`: subtract xs[i], xs[i+1], ... from P
   and stop at the first position where P has become at most zero.
   */
  function Crossing(xs: seq<real>, P: real, i: nat): (r: Option<nat>)
    ensures r.Some? ==> i <= r.value < |xs|
    decreases |xs| - i
  {
    if i >= |xs| then None
    else if P - xs[i] <= 0.0 then Some(i)
    else Crossing(xs, P - xs[i], i + 1)
  }

  /** The roulette's starting value P = u * total. */
  function Threshold(mags: seq<real>, u: real): real {
    u * Sum(mags)
  }

  /**
   pick_expansion_vertex on given force magnitudes (one per key, in key
   order) and draw u: P = u * total. None stands for the fallback `return 0`.
   */
  function Roulette(order: seq<Key>, mags: seq<real>, u: real): (r: Option<Key>)
    requires |mags| == |order|
    ensures r.Some? ==> r.value in order
    ensures order == [] ==> r.None?
  {
    var c := Crossing(mags, Threshold(mags, u), 0);
    if c.None? then None else Some(order[c.value])
  }

  /** The burn and weight rule for a vertex on the best path. */
  function Boost(k: Key, x: Vertex): (y: Vertex)
    requires x.burnt.Some?
    ensures y.neighbors == x.neighbors && y.loc == x.loc && y.burnt.Some?
    ensures x.burnt.value < 15.0 ==> y.burnt.value == x.burnt.value + 0.005
    ensures x.burnt.value >= 15.0 ==> y.burnt == x.burnt
    ensures x.burnt.value <= y.burnt.value
    ensures x.burnt.value < 15.005 ==> y.burnt.value < 15.005
    ensures k == Root ==> y.weight == x.weight
    ensures k != Root ==> 1.0 <= y.weight
    ensures k != Root && x.weight < 1.0 ==> y.weight == 1.0
    ensures k != Root && 1.0 <= x.weight < 2.0 ==> y.weight == x.weight * 1.1
    ensures x.weight >= 2.0 ==> y.weight == x.weight
  {
    var b := x.burnt.value;
    var burnt := if b < 15.0 then x.(burnt := Some(b + 0.005)) else x;
    if k == Root then burnt
    else if burnt.weight < 1.0 then burnt.(weight := 1.0)
    else if burnt.weight < 2.0 then burnt.(weight := burnt.weight * 1.1)
    else burnt
  }

  /** The decay rule for a vertex off the best path. */
  function Decay(x: Vertex): (y: Vertex)
    ensures y.neighbors == x.neighbors && y.loc == x.loc && y.burnt == x.burnt
    ensures y.weight < x.weight <==> x.weight > 0.025
    ensures y.weight < x.weight ==> y.weight == x.weight - 0.025
    ensures y.weight >= x.weight ==> y.weight == x.weight
    ensures x.weight > 0.0 ==> y.weight > 0.0
  {
    if x.weight > 0.025 then x.(weight := x.weight - 0.025) else x
  }

  /** The dictionary after set_active_states along `path`. */
  function Reinforced(d: Dict, path: seq<Key>): (r: Dict)
    requires forall k :: k in path ==> k in d && d[k].burnt.Some?
    ensures r.Keys == d.Keys
    ensures Full(d) ==> Full(r)
  {
    map k | k in d :: if k in path then Boost(k, d[k]) else Decay(d[k])
  }

  /**
   set_active_states(v) as a value: the best path from `v` to the root, then
   the reinforcement; a failed path search raises before anything changes.
   */
  function ActiveStates(d: Dict, v: Key): (r: Result<Dict>)
    requires Full(d)
    ensures r.Ok? ==> r.value.Keys == d.Keys && Full(r.value)
  {
    match FindShortestPath(d, v, Root)
    case Err(f) => Err(f)
    case Ok(path) => Ok(Reinforced(d, path))
  }

  /** One attempt's oracle: the draw u, the force magnitudes in key order, the proposed point. */
  datatype Attempt = Attempt(draw: real, magnitudes: seq<real>, point: Point)

  /** How make_new_vertex ends: a new vertex, no accepted attempt among those given, or an exception. */
  datatype Outcome = Committed(key: Key) | Exhausted | Raised(failure: Failure)

  datatype Step = Step(outcome: Outcome, store: Store)

  ghost predicate Fits(s: Store, atts: seq<Attempt>) {
    forall a :: a in atts ==> |a.magnitudes| == |s.order|
  }

  /** Whether an attempt that picked `v` is discarded: the point is near a vertex other than `v`. */
  predicate Retries(s: Store, a: Attempt, v: Key): (b: bool)
    requires WellFormed(s) && Full(s.dict)
    ensures b ==> exists k :: && k in s.dict && k != v && Dist2(LocOf(s.dict, k), a.point) < Reach2
                              && forall k' :: k' in s.dict ==> Dist2(LocOf(s.dict, k), a.point) <= Dist2(LocOf(s.dict, k'), a.point)
    ensures !b ==> || (forall k :: k in s.dict ==> Dist2(LocOf(s.dict, k), a.point) >= Reach2)
                   || exists n :: && n in s.dict && (n == v || n == "")
                                  && forall k :: k in s.dict ==> Dist2(LocOf(s.dict, n), a.point) <= Dist2(LocOf(s.dict, k), a.point)
  {
    var near := TooClose(s, a.point);
    Truthy(near) && v != near.value
  }

  /** Reinforcement from `v` after an attempt; an exception replaces the outcome. */
  function Settle(o: Outcome, s: Store, v: Key): (st: Step)
    requires WellFormed(s) && Full(s.dict)
    ensures WellFormed(st.store) && Full(st.store.dict)
    ensures st.outcome == o || st.outcome.Raised?
  {
    match ActiveStates(s.dict, v)
    case Ok(d) => Step(o, Store(d, s.order))
    case Err(f) => Step(Raised(f), s)
  }

  /**
   make_new_vertex over a finite sequence of attempts. A discarded attempt
   recurses first and reinforces from its own vertex afterwards, so the
   innermost attempt is reinforced first.
   */
  function Grow(s: Store, atts: seq<Attempt>): (st: Step)
    requires WellFormed(s) && Full(s.dict) && Fits(s, atts)
    ensures WellFormed(st.store) && Full(st.store.dict)
    decreases |atts|
  {
    if atts == [] then Step(Exhausted, s)
    else
      var a := atts[0];
      var picked := Roulette(s.order, a.magnitudes, a.draw);
      if picked.None? then Step(Raised(KeyError), s)
      else
        var v := picked.value;
        if Retries(s, a, v) then
          var inner := Grow(s, atts[1..]);
          if inner.outcome.Committed? then Settle(inner.outcome, inner.store, v) else inner
        else
          var key := NatToString(|s.dict|);
          Settle(Committed(key), Placed(s, key, [v], Some(a.point), 1.0), v)
  }

  /** The dictionary once the vertices of `done` (a prefix of the path) are boosted. */
  ghost function Burned(d: Dict, done: seq<Key>): (r: Dict)
    requires forall k :: k in done ==> k in d && d[k].burnt.Some?
    ensures r.Keys == d.Keys
    ensures Full(d) ==> Full(r)
  {
    map k | k in d :: if k in done then Boost(k, d[k]) else d[k]
  }

  lemma BurnedStep(d: Dict, path: seq<Key>, i: nat)
    requires i < |path| && NoDup(path)
    requires forall k :: k in path ==> k in d && d[k].burnt.Some?
    ensures path[i] !in path[..i]
    ensures Burned(d, path[..i + 1]) == Burned(d, path[..i])[path[i] := Boost(path[i], d[path[i]])]
  {
    assert path[..i + 1] == path[..i] + [path[i]];
  }

  /** The dictionary once the off-path vertices among `done` are decayed. */
  ghost function Decayed(d: Dict, path: seq<Key>, done: seq<Key>): (r: Dict)
    ensures r.Keys == d.Keys
    ensures Full(d) ==> Full(r)
  {
    map k | k in d :: if k in done && k !in path then Decay(d[k]) else d[k]
  }

  lemma DecayedStep(d: Dict, path: seq<Key>, order: seq<Key>, j: nat)
    requires j < |order| && NoDup(order) && order[j] in d
    ensures var k := order[j];
            Decayed(d, path, order[..j + 1]) ==
              if k !in path then Decayed(d, path, order[..j])[k := Decay(Decayed(d, path, order[..j])[k])]
              else Decayed(d, path, order[..j])
  {
    assert order[..j + 1] == order[..j] + [order[j]];
    assert order[j] !in order[..j];
  }

  lemma DecayedAll(d: Dict, path: seq<Key>, order: seq<Key>)
    requires forall k :: k in path ==> k in d && d[k].burnt.Some?
    requires forall k :: k in d ==> k in order
    ensures Decayed(Burned(d, path), path, order) == Reinforced(d, path)
  {
  }

  class LichtenbergGraph {
    const base: Graph

    ghost predicate Valid()
      reads this, base
    {
      base.Valid() && Full(base.dict)
    }

    /** Starts from a given dictionary whose records all carry burnt and loc. */
    constructor (initial: Store)
      requires WellFormed(initial) && Full(initial.dict)
      ensures Valid() && fresh(base) && base.Snapshot() == initial
    {
      base := new Graph(initial);
    }

    method AddVertex(v: Key, neigh: seq<Key>, pos: Option<Point>, w: real)
      requires Valid()
      modifies base
      ensures Valid()
      ensures base.Snapshot() == Placed(old(base.Snapshot()), v, neigh, pos, w)
    {
      base.AddVertex(v, neigh, w);
      ghost var inserted := base.Snapshot();
      base.dict := base.dict[v := base.dict[v].(burnt := Some(0.0))];
      match pos {
        case None => base.dict := base.dict[v := base.dict[v].(loc := Some(Point(0.0, 0.0)))];
        case Some(p) => base.dict := base.dict[v := base.dict[v].(loc := Some(p))];
      }
      assert base.dict == inserted.dict[v := inserted.dict[v].(burnt := Some(0.0), loc := Some(OrOrigin(pos)))];
    }

    /** The scan of is_too_close, returning at the first vertex within 1.4 r. */
    method IsTooClose(p: Point) returns (near: Option<Key>)
      requires Valid()
      ensures near == TooClose(base.Snapshot(), p)
    {
      var i := 0;
      while i < |base.order|
        invariant 0 <= i <= |base.order|
        invariant forall j :: 0 <= j < i ==> Dist2(LocOf(base.dict, base.order[j]), p) >= Reach2
      {
        var k := base.order[i];
        if Dist2(base.dict[k].loc.value, p) < Reach2 {
          return Some(GetNearestVertex(base.Snapshot(), p));
        }
        i := i + 1;
      }
      return None;
    }

    /** The roulette scan of pick_expansion_vertex on the given magnitudes and draw. */
    method PickExpansionVertex(magnitudes: seq<real>, draw: real) returns (picked: Option<Key>)
      requires Valid() && |magnitudes| == |base.order|
      ensures picked == Roulette(base.order, magnitudes, draw)
    {
      var total := Sum(magnitudes);
      var P := draw * total;
      assert total == Sum(magnitudes);
      assert P == Threshold(magnitudes, draw);
      ghost var target := Crossing(magnitudes, P, 0);
      assert Roulette(base.order, magnitudes, draw) == if target.None? then None else Some(base.order[target.value]);
      var i: nat := 0;
      while i < |magnitudes|
        invariant i <= |magnitudes|
        invariant target == Crossing(magnitudes, P, i)
      {
        assert Crossing(magnitudes, P, i) ==
          if P - magnitudes[i] <= 0.0 then Some(i) else Crossing(magnitudes, P - magnitudes[i], i + 1);
        P := P - magnitudes[i];
        if P <= 0.0 {
          return Some(base.order[i]);
        }
        i := i + 1;
      }
      assert target == None;
      return None;
    }

    method SetActiveStates(v: Key) returns (raised: Option<Failure>)
      requires Valid()
      modifies base
      ensures Valid() && base.order == old(base.order)
      ensures match ActiveStates(old(base.dict), v)
              case Ok(d) => raised == None && base.dict == d
              case Err(f) => raised == Some(f) && base.dict == old(base.dict)
    {
      var found := FindShortestPath(base.dict, v, Root);
      if found.Err? {
        return Some(found.failure);
      }
      var path := found.value;
      ghost var d0 := base.dict;
      BurnPath(path);
      DecayRest(path);
      DecayedAll(d0, path, base.order);
      return None;
    }

    /** The first loop of set_active_states: burn and weight rule along the path. */
    method BurnPath(path: seq<Key>)
      requires Valid() && NoDup(path) && forall k :: k in path ==> k in base.dict
      modifies base
      ensures Valid() && base.order == old(base.order)
      ensures base.dict == Burned(old(base.dict), path)
    {
      ghost var d0 := base.dict;
      var i := 0;
      while i < |path|
        invariant 0 <= i <= |path|
        invariant base.order == old(base.order)
        invariant base.dict == Burned(d0, path[..i])
      {
        var k := path[i];
        BurnedStep(d0, path, i);
        var x := base.dict[k];
        assert x == d0[k];
        if x.burnt.value < 15.0 {
          x := x.(burnt := Some(x.burnt.value + 0.005));
        }
        if k != Root {
          if x.weight < 1.0 {
            x := x.(weight := 1.0);
          } else if x.weight < 2.0 {
            x := x.(weight := x.weight * 1.1);
          }
        }
        assert x == Boost(k, d0[k]);
        base.dict := base.dict[k := x];
        i := i + 1;
      }
      assert path[..|path|] == path;
    }

    /** The second loop of set_active_states: decay every vertex off the path. */
    method DecayRest(path: seq<Key>)
      requires Valid()
      modifies base
      ensures Valid() && base.order == old(base.order)
      ensures base.dict == Decayed(old(base.dict), path, base.order)
    {
      ghost var d1 := base.dict;
      var j := 0;
      while j < |base.order|
        invariant 0 <= j <= |base.order|
        invariant base.order == old(base.order)
        invariant base.dict == Decayed(d1, path, base.order[..j])
      {
        var k := base.order[j];
        DecayedStep(d1, path, base.order, j);
        if k !in path {
          var x := base.dict[k];
          if x.weight > 0.025 {
            base.dict := base.dict[k := x.(weight := x.weight - 0.025)];
          }
        }
        j := j + 1;
      }
      assert base.order[..|base.order|] == base.order;
    }

    /**
     make_new_vertex, one attempt per call: retry when the proposed point is
     near a vertex other than the expansion vertex, otherwise add the new
     leaf str(len(graph)) linked one way to the expansion vertex; in both
     cases reinforce from the expansion vertex afterwards.
     */
    method MakeNewVertex(attempts: seq<Attempt>) returns (outcome: Outcome)
      requires Valid() && Fits(base.Snapshot(), attempts)
      modifies base
      ensures Valid()
      ensures Step(outcome, base.Snapshot()) == Grow(old(base.Snapshot()), attempts)
      decreases |attempts|
    {
      if attempts == [] {
        return Exhausted;
      }
      var a := attempts[0];
      var picked := PickExpansionVertex(a.magnitudes, a.draw);
      if picked.None? {
        return Raised(KeyError);
      }
      var v := picked.value;
      var near := IsTooClose(a.point);
      if Truthy(near) && v != near.value {
        outcome := MakeNewVertex(attempts[1..]);
        if !outcome.Committed? {
          return;
        }
      } else {
        var key := NatToString(|base.dict|);
        AddVertex(key, [v], Some(a.point), 1.0);
        outcome := Committed(key);
      }
      var raised := SetActiveStates(v);
      if raised.Some? {
        outcome := Raised(raised.value);
      }
    }
  }
}
