/**
 What repeated growth keeps true (inverse_square_law_simple.py,
 make_new_vertex and set_active_states over the graphs.py store): keys
 stay "0".."n-1" in insertion order, every vertex still leads back to the
 root, so the best-path search from an expansion vertex never meets an
 empty path list; burnt only grows and stays below 15.005, weights stay
 positive and the root's weight never changes.
 */
module Growth {
  import opened Graphs
  import opened Paths
  import opened Scoring
  import opened Decimal
  import opened Lichtenberg
  import opened Wheel

  /**
   The shape growth keeps: the keys are str(0), str(1), ... in insertion
   order and every vertex after the root lists an earlier vertex among
   its neighbours.
   */
  ghost predicate Rooted(s: Store) {
    && WellFormed(s) && Full(s.dict)
    && |s.order| > 0
    && (forall i {:trigger s.order[i]} :: 0 <= i < |s.order| ==> s.order[i] == NatToString(i))
    && (forall i {:trigger LinksBack(s, i)} :: 0 < i < |s.order| ==> LinksBack(s, i))
  }

  /** Vertex number i lists some earlier vertex among its neighbours. */
  ghost predicate LinksBack(s: Store, i: nat)
    requires WellFormed(s) && i < |s.order|
  {
    exists j :: 0 <= j < i && s.order[j] in s.dict[s.order[i]].neighbors
  }

  /** Weights are positive and burnt lies in [0, 15.005). */
  ghost predicate Bounded(d: Dict) {
    && Full(d)
    && forall k :: k in d ==> d[k].weight > 0.0 && 0.0 <= d[k].burnt.value < 15.005
  }

  /**
   `t` grew out of `s`: the old key order is a prefix of the new one, old
   vertices keep their neighbours and locations, burnt never decreases and
   the root's weight is unchanged.
   */
  ghost predicate Evolves(s: Store, t: Store) {
    && |s.order| <= |t.order| && t.order[..|s.order|] == s.order
    && (forall k :: k in s.dict ==>
          && k in t.dict
          && t.dict[k].neighbors == s.dict[k].neighbors
          && t.dict[k].loc == s.dict[k].loc
          && (s.dict[k].burnt.Some? ==> t.dict[k].burnt.Some? && s.dict[k].burnt.value <= t.dict[k].burnt.value))
    && (Root in s.dict ==> Root in t.dict && t.dict[Root].weight == s.dict[Root].weight)
  }

  lemma EvolvesTrans(a: Store, b: Store, c: Store)
    requires Evolves(a, b) && Evolves(b, c)
    ensures Evolves(a, c)
  {
    assert c.order[..|a.order|] == c.order[..|b.order|][..|a.order|];
  }

  /**
   From vertex number i a walk down to the root along links to earlier
   vertices; it visits only vertices numbered at most i, so it is simple.
   */
  lemma {:induction false} DescendingWalk(s: Store, i: nat) returns (w: seq<Key>)
    requires Rooted(s) && i < |s.order|
    ensures SimplePath(s.dict, w, s.order[i], Root)
    ensures forall k :: k in w ==> exists m :: 0 <= m <= i && s.order[m] == k
    decreases i
  {
    if i == 0 {
      ZeroString();
      w := [Root];
    } else {
      assert LinksBack(s, i);
      var j :| 0 <= j < i && s.order[j] in s.dict[s.order[i]].neighbors;
      var rest := DescendingWalk(s, j);
      var x := s.order[i];
      w := [x] + rest;
      forall k | k in rest ensures k != x {
        var m :| 0 <= m <= j && s.order[m] == k;
      }
      assert NoDup(w) by {
        forall a, b | 0 <= a < b < |w| ensures w[a] != w[b] {
          assert w[b] == rest[b - 1] && rest[b - 1] in rest;
          if a > 0 {
            assert w[a] == rest[a - 1];
          }
        }
      }
      assert Linked(s.dict, w) by {
        forall a | 0 <= a < |w| - 1 ensures w[a] in s.dict && w[a + 1] in s.dict[w[a]].neighbors {
          assert w[a + 1] == rest[a];
          if a > 0 {
            assert w[a] == rest[a - 1];
          }
        }
      }
    }
  }

  /**
   Every vertex of a rooted graph reaches the root: find_shortest_path
   towards "0" has a non-empty list to choose from and every listed vertex
   is a key, so set_active_states never raises.
   */
  lemma RootedReaches(s: Store, v: Key)
    requires Rooted(s) && v in s.dict
    ensures FindAllPaths(s.dict, v, Root) != []
    ensures FindShortestPath(s.dict, v, Root).Ok?
    ensures ActiveStates(s.dict, v).Ok?
  {
    var i :| 0 <= i < |s.order| && s.order[i] == v;
    var w := DescendingWalk(s, i);
    FindAllPathsComplete(s.dict, w, v, Root);
    ZeroString();
    assert Root in s.dict by {
      assert s.order[0] == Root;
    }
    var paths := FindAllPaths(s.dict, v, Root);
    forall q | 0 <= q < |paths| ensures Known(s.dict, paths[q]) {
      assert paths[q] in paths;
      PathVerticesKnown(s.dict, paths[q], v, Root);
    }
  }

  /** Reinforcing along a path that ends at the root keeps the shape and the bounds. */
  lemma ReinforceKeeps(s: Store, path: seq<Key>, v: Key)
    requires Rooted(s) && Bounded(s.dict)
    requires SimplePath(s.dict, path, v, Root) && Known(s.dict, path)
    ensures var t := Store(Reinforced(s.dict, path), s.order);
            Rooted(t) && Bounded(t.dict) && Evolves(s, t)
  {
    var t := Store(Reinforced(s.dict, path), s.order);
    assert Root in path by {
      assert path[|path| - 1] == Root;
    }
    assert s.order[..|s.order|] == s.order;
    forall i | 0 < i < |t.order| ensures LinksBack(t, i) {
      assert LinksBack(s, i);
      var j :| 0 <= j < i && s.order[j] in s.dict[s.order[i]].neighbors;
    }
  }

  /** Settling from a vertex of a rooted graph raises nothing and keeps the shape. */
  lemma SettleKeeps(o: Outcome, s: Store, v: Key)
    requires Rooted(s) && Bounded(s.dict) && v in s.dict
    ensures var st := Settle(o, s, v);
            && st.outcome == o && st.store.order == s.order
            && Rooted(st.store) && Bounded(st.store.dict) && Evolves(s, st.store)
  {
    RootedReaches(s, v);
    var path := FindShortestPath(s.dict, v, Root).value;
    ReinforceKeeps(s, path, v);
  }

  /**
   Committing a new leaf linked to `v`: the key str(len(graph)) is fresh,
   the record is the one the source writes, and the shape is kept.
   */
  lemma CommitKeeps(s: Store, v: Key, p: Point)
    requires Rooted(s) && Bounded(s.dict) && v in s.dict
    ensures var key := NatToString(|s.order|);
            var t := Placed(s, key, [v], Some(p), 1.0);
            && key !in s.dict
            && t.order == s.order + [key]
            && t.dict[key] == Vertex(1.0, [v], Some(0.0), Some(p))
            && Rooted(t) && Bounded(t.dict) && Evolves(s, t)
  {
    var key := NatToString(|s.order|);
    FreshKey(s);
    var leaf := Vertex(1.0, [v], Some(0.0), Some(p));
    assert Placed(s, key, [v], Some(p), 1.0) == Store(s.dict[key := leaf], s.order + [key]);
    ExtendKeeps(s, v, leaf);
  }

  /** Appending a fresh leaf str(len(graph)) that links to an existing vertex. */
  lemma ExtendKeeps(s: Store, v: Key, leaf: Vertex)
    requires Rooted(s) && Bounded(s.dict) && v in s.dict
    requires NatToString(|s.order|) !in s.dict
    requires leaf.neighbors == [v] && leaf.weight > 0.0
    requires leaf.burnt.Some? && 0.0 <= leaf.burnt.value < 15.005 && leaf.loc.Some?
    ensures var key := NatToString(|s.order|);
            var t := Store(s.dict[key := leaf], s.order + [key]);
            Rooted(t) && Bounded(t.dict) && Evolves(s, t)
  {
    var n := |s.order|;
    var t := Store(s.dict[NatToString(n) := leaf], s.order + [NatToString(n)]);
    assert t.order[..n] == s.order;
    ExtendOrder(s, leaf);
    ExtendLinks(s, v, leaf);
  }

  lemma ExtendOrder(s: Store, leaf: Vertex)
    requires Rooted(s) && NatToString(|s.order|) !in s.dict
    ensures var key := NatToString(|s.order|);
            var t := Store(s.dict[key := leaf], s.order + [key]);
            && WellFormed(t)
            && forall i {:trigger t.order[i]} :: 0 <= i < |t.order| ==> t.order[i] == NatToString(i)
  {
    var n := |s.order|;
    var t := Store(s.dict[NatToString(n) := leaf], s.order + [NatToString(n)]);
    forall i, j | 0 <= i < j < |t.order| ensures t.order[i] != t.order[j] {
      assert t.order[i] == s.order[i];
      if j < n {
        assert t.order[j] == s.order[j];
      }
    }
    forall i | 0 <= i < |t.order| ensures t.order[i] == NatToString(i) {
      if i < n {
        assert t.order[i] == s.order[i];
      }
    }
  }

  lemma ExtendLinks(s: Store, v: Key, leaf: Vertex)
    requires Rooted(s) && v in s.dict && leaf.neighbors == [v]
    requires NatToString(|s.order|) !in s.dict
    ensures var key := NatToString(|s.order|);
            var t := Store(s.dict[key := leaf], s.order + [key]);
            WellFormed(t) ==> forall i {:trigger LinksBack(t, i)} :: 0 < i < |t.order| ==> LinksBack(t, i)
  {
    var n := |s.order|;
    var t := Store(s.dict[NatToString(n) := leaf], s.order + [NatToString(n)]);
    if WellFormed(t) {
      forall i | 0 < i < |t.order| ensures LinksBack(t, i) {
        if i < n {
          assert LinksBack(s, i);
          var j :| 0 <= j < i && s.order[j] in s.dict[s.order[i]].neighbors;
          assert t.order[j] == s.order[j];
        } else {
          var j :| 0 <= j < n && s.order[j] == v;
          assert t.order[j] == v;
        }
      }
    }
  }

  /** str(len(graph)) is not yet a key of a rooted graph. */
  lemma FreshKey(s: Store)
    requires Rooted(s)
    ensures NatToString(|s.order|) !in s.dict
  {
    var n := |s.order|;
    forall i | 0 <= i < n ensures s.order[i] != NatToString(n) {
      NatToStringInjective(i, n);
    }
  }

  /** Fair attempts: one non-negative magnitude per key and a draw in [0, 1]. */
  ghost predicate Fair(s: Store, atts: seq<Attempt>) {
    forall a :: a in atts ==>
      && |a.magnitudes| == |s.order|
      && 0.0 <= a.draw <= 1.0
      && forall i :: 0 <= i < |a.magnitudes| ==> a.magnitudes[i] >= 0.0
  }

  /**
   What one call of make_new_vertex may do to `s` with attempts `atts`:
   it raises nothing, keeps the shape and the bounds, changes nothing when
   every attempt was discarded, and on a commit adds exactly the key
   str(len(graph)), whose only neighbour is a vertex of the old graph and
   whose location is the point of one of the attempts.
   */
  ghost predicate Grew(s: Store, atts: seq<Attempt>, st: Step) {
    && !st.outcome.Raised?
    && Rooted(st.store) && Bounded(st.store.dict) && Evolves(s, st.store)
    && (st.outcome == Exhausted ==> st.store == s)
    && (st.outcome.Committed? ==>
          && st.outcome.key == NatToString(|s.order|)
          && st.store.order == s.order + [st.outcome.key]
          && st.outcome.key in st.store.dict
          && |st.store.dict[st.outcome.key].neighbors| == 1
          && st.store.dict[st.outcome.key].neighbors[0] in s.dict
          && exists a :: a in atts && st.store.dict[st.outcome.key].loc == Some(a.point))
  }

  /**
   The growth theorem: on a rooted graph with fair attempts,
   make_new_vertex never raises, and either commits exactly one new leaf
   or, when every attempt was discarded, changes nothing.
   */
  lemma {:induction false} GrowKeepsRooted(s: Store, atts: seq<Attempt>)
    requires Rooted(s) && Bounded(s.dict) && Fair(s, atts)
    ensures Fits(s, atts)
    ensures Grew(s, atts, Grow(s, atts))
    decreases |atts|
  {
    if atts != [] {
      var a := atts[0];
      var v := PickedKnown(s, a);
      if Retries(s, a, v) {
        var rest := atts[1..];
        assert Fair(s, rest) by {
          assert forall b :: b in rest ==> b in atts;
        }
        GrowKeepsRooted(s, rest);
        RetryGrew(s, atts, Grow(s, rest), v);
      } else {
        CommitGrew(s, atts, v);
      }
    }
  }

  /** On a fair attempt the roulette picks a key of the graph. */
  lemma PickedKnown(s: Store, a: Attempt) returns (v: Key)
    requires Rooted(s) && |a.magnitudes| == |s.order|
    requires 0.0 <= a.draw <= 1.0 && forall i :: 0 <= i < |a.magnitudes| ==> a.magnitudes[i] >= 0.0
    ensures Roulette(s.order, a.magnitudes, a.draw) == Some(v) && v in s.dict
  {
    RouletteNeverFallsBack(s.order, a.magnitudes, a.draw);
    RouletteFirstCrossing(s.order, a.magnitudes, a.draw);
    v := Roulette(s.order, a.magnitudes, a.draw).value;
  }

  /** A discarded attempt at `v`: the inner call's result, reinforced from `v` if it committed. */
  lemma RetryGrew(s: Store, atts: seq<Attempt>, inner: Step, v: Key)
    requires Rooted(s) && Bounded(s.dict) && v in s.dict && atts != []
    requires Grew(s, atts[1..], inner)
    ensures Grew(s, atts, if inner.outcome.Committed? then Settle(inner.outcome, inner.store, v) else inner)
  {
    if inner.outcome.Committed? {
      var key := inner.outcome.key;
      SettleKeeps(inner.outcome, inner.store, v);
      var st := Settle(inner.outcome, inner.store, v);
      EvolvesTrans(s, inner.store, st.store);
      FreshKey(s);
      var b :| b in atts[1..] && inner.store.dict[key].loc == Some(b.point);
      assert b in atts;
    }
  }

  /** An accepted attempt at `v`: the new leaf, then reinforcement from `v`. */
  lemma CommitGrew(s: Store, atts: seq<Attempt>, v: Key)
    requires Rooted(s) && Bounded(s.dict) && v in s.dict && atts != []
    ensures var key := NatToString(|s.dict|);
            Grew(s, atts, Settle(Committed(key), Placed(s, key, [v], Some(atts[0].point), 1.0), v))
  {
    WellFormedSize(s);
    var key := NatToString(|s.order|);
    CommitKeeps(s, v, atts[0].point);
    var t := Placed(s, key, [v], Some(atts[0].point), 1.0);
    SettleKeeps(Committed(key), t, v);
    EvolvesTrans(s, t, Settle(Committed(key), t, v).store);
  }

  function Reverse<T>(xs: seq<T>): seq<T> {
    if xs == [] then [] else Reverse(xs[1..]) + [xs[0]]
  }

  lemma TailSnoc<T>(xs: seq<T>, x: T)
    requires xs != []
    ensures (xs + [x])[1..] == xs[1..] + [x]
  {
  }

  lemma ReverseStep<T>(x: T, xs: seq<T>)
    requires xs != []
    ensures [x] + Reverse(xs) == ([x] + Reverse(xs[1..])) + [xs[0]]
  {
  }

  /**
   The reinforcements still owed after a commit: from each vertex of `vs`
   in turn, as long as none of them has raised.
   */
  function SettleAll(st: Step, vs: seq<Key>): (r: Step)
    requires WellFormed(st.store) && Full(st.store.dict)
    ensures WellFormed(r.store) && Full(r.store.dict)
    ensures !st.outcome.Committed? ==> r == st
    decreases |vs|
  {
    if vs == [] || !st.outcome.Committed? then st
    else SettleAll(Settle(st.outcome, st.store, vs[0]), vs[1..])
  }

  lemma {:induction false} SettleAllSnoc(st: Step, vs: seq<Key>, x: Key)
    requires WellFormed(st.store) && Full(st.store.dict)
    ensures var m := SettleAll(st, vs);
            SettleAll(st, vs + [x]) == if m.outcome.Committed? then Settle(m.outcome, m.store, x) else m
    decreases |vs|
  {
    if vs != [] && st.outcome.Committed? {
      TailSnoc(vs, x);
      SettleAllSnoc(Settle(st.outcome, st.store, vs[0]), vs[1..], x);
    }
  }

  /** Attempt `a` picks `v` and is discarded there. */
  ghost predicate DiscardedAt(s: Store, a: Attempt, v: Key)
    requires WellFormed(s) && Full(s.dict) && |a.magnitudes| == |s.order|
  {
    Roulette(s.order, a.magnitudes, a.draw) == Some(v) && Retries(s, a, v)
  }

  /** Attempts atts[0], ..., atts[|vs| - 1] pick vs[0], ..., vs[|vs| - 1] and are all discarded. */
  ghost predicate AllDiscarded(s: Store, atts: seq<Attempt>, vs: seq<Key>)
    requires WellFormed(s) && Full(s.dict) && Fits(s, atts)
    decreases |vs|
  {
    && |vs| <= |atts|
    && (vs != [] ==>
          && DiscardedAt(s, atts[0], vs[0])
          && (assert forall b :: b in atts[1..] ==> b in atts; AllDiscarded(s, atts[1..], vs[1..])))
  }

  lemma GrowRetry(s: Store, atts: seq<Attempt>, v: Key)
    requires WellFormed(s) && Full(s.dict) && Fits(s, atts) && atts != []
    requires DiscardedAt(s, atts[0], v)
    ensures Fits(s, atts[1..])
    ensures var inner := Grow(s, atts[1..]);
            Grow(s, atts) == if inner.outcome.Committed? then Settle(inner.outcome, inner.store, v) else inner
  {
    assert forall b :: b in atts[1..] ==> b in atts;
  }

  lemma GrowCommit(s: Store, atts: seq<Attempt>, v: Key)
    requires WellFormed(s) && Full(s.dict) && Fits(s, atts) && atts != []
    requires Roulette(s.order, atts[0].magnitudes, atts[0].draw) == Some(v) && !Retries(s, atts[0], v)
    ensures var key := NatToString(|s.dict|);
            Grow(s, atts) == Settle(Committed(key), Placed(s, key, [v], Some(atts[0].point), 1.0), v)
  {
  }

  /** One discarded attempt in front: its reinforcement comes after all of the inner ones. */
  lemma UnrolledStep(s: Store, atts: seq<Attempt>, start: Step, xs: seq<Key>, x: Key)
    requires WellFormed(s) && Full(s.dict) && Fits(s, atts) && atts != []
    requires WellFormed(start.store) && Full(start.store.dict)
    requires DiscardedAt(s, atts[0], x)
    requires Fits(s, atts[1..]) && Grow(s, atts[1..]) == SettleAll(start, xs)
    ensures Grow(s, atts) == SettleAll(start, xs + [x])
  {
    GrowRetry(s, atts, x);
    SettleAllSnoc(start, xs, x);
  }

  lemma GrowUnrolledBase(s: Store, atts: seq<Attempt>, v: Key)
    requires WellFormed(s) && Full(s.dict) && Fits(s, atts) && atts != []
    requires Roulette(s.order, atts[0].magnitudes, atts[0].draw) == Some(v) && !Retries(s, atts[0], v)
    ensures var key := NatToString(|s.dict|);
            Grow(s, atts) == SettleAll(Step(Committed(key), Placed(s, key, [v], Some(atts[0].point), 1.0)), [v])
  {
    var key := NatToString(|s.dict|);
    var start := Step(Committed(key), Placed(s, key, [v], Some(atts[0].point), 1.0));
    GrowCommit(s, atts, v);
    SettleOne(start, v);
  }

  lemma SettleOne(st: Step, v: Key)
    requires WellFormed(st.store) && Full(st.store.dict)
    ensures SettleAll(st, [v]) == if st.outcome.Committed? then Settle(st.outcome, st.store, v) else st
  {
    assert [v][1..] == [];
  }

  /**
   set_active_states runs once per attempt, innermost first: when the
   first k attempts are discarded at vertices vs[0..k) and attempt k
   commits at vertex v, the result is the commit followed by reinforcement
   from v, then from vs[k-1], ..., vs[0].
   */
  lemma {:induction false} GrowUnrolled(s: Store, atts: seq<Attempt>, vs: seq<Key>, v: Key)
    requires WellFormed(s) && Full(s.dict) && Fits(s, atts)
    requires |vs| < |atts|
    requires AllDiscarded(s, atts, vs)
    requires Roulette(s.order, atts[|vs|].magnitudes, atts[|vs|].draw) == Some(v) && !Retries(s, atts[|vs|], v)
    ensures var key := NatToString(|s.dict|);
            Grow(s, atts) == SettleAll(Step(Committed(key), Placed(s, key, [v], Some(atts[|vs|].point), 1.0)), [v] + Reverse(vs))
    decreases |vs|
  {
    var key := NatToString(|s.dict|);
    var start := Step(Committed(key), Placed(s, key, [v], Some(atts[|vs|].point), 1.0));
    if vs == [] {
      assert [v] + Reverse(vs) == [v];
      GrowUnrolledBase(s, atts, v);
    } else {
      var rest, later := atts[1..], vs[1..];
      assert Fits(s, rest) by {
        assert forall b :: b in rest ==> b in atts;
      }
      assert rest[|later|] == atts[|vs|];
      GrowUnrolled(s, rest, later, v);
      ReverseStep(v, vs);
      UnrolledStep(s, atts, start, [v] + Reverse(later), vs[0]);
    }
  }
}
