/**
 Exhaustive enumeration of the simple paths between two vertices
 (graphs.py, find_all_paths), by recursion over the neighbour lists.
 */
module Paths {
  import opened Graphs

  type Dict = map<Key, Vertex>

  /** Every step of `w` follows a neighbour link of a vertex that is a key. */
  ghost predicate Linked(d: Dict, w: seq<Key>) {
    forall i :: 0 <= i < |w| - 1 ==> w[i] in d && w[i + 1] in d[w[i]].neighbors
  }

  /** A walk from `s` to `e` along neighbour links that repeats no vertex. */
  ghost predicate SimplePath(d: Dict, w: seq<Key>, s: Key, e: Key) {
    && |w| > 0
    && w[0] == s
    && w[|w| - 1] == e
    && NoDup(w)
    && Linked(d, w)
  }

  function Visited(path: seq<Key>): set<Key> {
    set x | x in path
  }

  lemma VisitMore(d: Dict, p: seq<Key>, v: Key)
    requires v !in p
    ensures v in d ==> |d.Keys - Visited(p + [v])| < |d.Keys - Visited(p)|
    ensures v !in d ==> d.Keys - Visited(p + [v]) == d.Keys - Visited(p)
  {
    assert Visited(p + [v]) == Visited(p) + {v};
    if v in d {
      assert d.Keys - Visited(p) == (d.Keys - Visited(p + [v])) + {v};
    }
  }

  /**
   All paths `path + w` where `w` leads from `s` to `e`. As in the source,
   the test `s == e` comes before the membership test, and a neighbour is
   entered only when it is not on the current path.
   */
  function FindAllPathsFrom(d: Dict, s: Key, e: Key, path: seq<Key>): (r: seq<seq<Key>>)
    ensures forall q :: q in r ==>
              && |q| > |path| && q[..|path|] == path && q[|path|] == s
              && q[|q| - 1] == e && Linked(d, q[|path|..])
    ensures NoDup(path) && s !in path ==> forall q :: q in r ==> NoDup(q)
    decreases |d.Keys - Visited(path + [s])|, if s in d then 2 else 0, 0
  {
    var p := path + [s];
    if s == e then [p]
    else if s !in d then []
    else
      var r := Explore(d, d[s].neighbors, e, p);
      ExtendSound(d, s, e, path, r);
      r
  }

  /** Prefixing `s` to the paths found from its neighbours keeps them sound. */
  lemma ExtendSound(d: Dict, s: Key, e: Key, path: seq<Key>, r: seq<seq<Key>>)
    requires s in d
    requires forall q :: q in r ==>
               && |q| > |path + [s]| && q[..|path + [s]|] == path + [s] && q[|path + [s]|] in d[s].neighbors
               && q[|q| - 1] == e && Linked(d, q[|path + [s]|..])
    ensures forall q :: q in r ==>
              && |q| > |path| && q[..|path|] == path && q[|path|] == s
              && q[|q| - 1] == e && Linked(d, q[|path|..])
  {
    forall q | q in r
      ensures |q| > |path| && q[..|path|] == path && q[|path|] == s && Linked(d, q[|path|..])
    {
      var k := |path|;
      assert q[..k] == q[..k + 1][..k];
      assert q[k] == q[..k + 1][k];
      var w, tail := q[k..], q[k + 1..];
      forall i | 0 <= i < |w| - 1 ensures w[i] in d && w[i + 1] in d[w[i]].neighbors {
        if i > 0 {
          assert w[i] == tail[i - 1] && w[i + 1] == tail[i];
        }
      }
    }
  }

  /** The loop over the neighbour list `nbrs` of the last vertex of `p`. */
  function Explore(d: Dict, nbrs: seq<Key>, e: Key, p: seq<Key>): (r: seq<seq<Key>>)
    ensures forall q :: q in r ==>
              && |q| > |p| && q[..|p|] == p && q[|p|] in nbrs
              && q[|q| - 1] == e && Linked(d, q[|p|..])
    ensures NoDup(p) ==> forall q :: q in r ==> NoDup(q)
    decreases |d.Keys - Visited(p)|, 1, |nbrs|
  {
    if nbrs == [] then []
    else
      var v := nbrs[0];
      var here := if v in p then [] else (VisitMore(d, p, v); FindAllPathsFrom(d, v, e, p));
      here + Explore(d, nbrs[1..], e, p)
  }

  /** find_all_paths(start, end) with the default empty path. */
  function FindAllPaths(d: Dict, s: Key, e: Key): (r: seq<seq<Key>>)
    ensures forall q :: q in r ==> SimplePath(d, q, s, e)
    ensures s == e ==> r == [[s]]
    ensures s != e && s !in d ==> r == []
  {
    var r := FindAllPathsFrom(d, s, e, []);
    assert forall q :: q in r ==> q[0..] == q;
    r
  }

  lemma {:induction false} ExploreIncludes(d: Dict, nbrs: seq<Key>, e: Key, p: seq<Key>, v: Key, q: seq<Key>)
    requires v in nbrs && v !in p && q in FindAllPathsFrom(d, v, e, p)
    ensures q in Explore(d, nbrs, e, p)
    decreases |nbrs|
  {
    if nbrs[0] != v {
      ExploreIncludes(d, nbrs[1..], e, p, v, q);
    }
  }

  lemma {:induction false} FindAllPathsFromComplete(d: Dict, w: seq<Key>, e: Key, path: seq<Key>)
    requires |w| > 0 && w[|w| - 1] == e && Linked(d, w) && NoDup(path + w)
    ensures path + w in FindAllPathsFrom(d, w[0], e, path)
    decreases |w|
  {
    var s := w[0];
    if s == e {
      NoDupParts(path, w);
      assert w[0] == w[|w| - 1];
      assert w == [s];
    } else {
      assert |w| >= 2;
      assert s in d && w[1] in d[s].neighbors;
      var p := path + [s];
      var tail := w[1..];
      assert p + tail == path + w;
      assert Linked(d, tail) by {
        forall i | 0 <= i < |tail| - 1 ensures tail[i] in d && tail[i + 1] in d[tail[i]].neighbors {
          assert tail[i] == w[i + 1] && tail[i + 1] == w[i + 2];
        }
      }
      FindAllPathsFromComplete(d, tail, e, p);
      assert w[1] !in p by {
        var k := |path| + 1;
        assert (path + w)[k] == w[1];
        forall j | 0 <= j < |p| ensures p[j] != w[1] {
          assert p[j] == (path + w)[j];
        }
      }
      ExploreIncludes(d, d[s].neighbors, e, p, w[1], path + w);
    }
  }

  lemma NoDupParts(a: seq<Key>, b: seq<Key>)
    requires NoDup(a + b)
    ensures NoDup(a) && NoDup(b)
    ensures |b| > 0 && b[0] == b[|b| - 1] ==> |b| == 1
  {
    forall i, j | 0 <= i < j < |a| ensures a[i] != a[j] {
      assert a[i] == (a + b)[i] && a[j] == (a + b)[j];
    }
    forall i, j | 0 <= i < j < |b| ensures b[i] != b[j] {
      assert b[i] == (a + b)[|a| + i] && b[j] == (a + b)[|a| + j];
    }
  }

  /** The enumeration is exhaustive: every simple path from `s` to `e` is listed. */
  lemma FindAllPathsComplete(d: Dict, w: seq<Key>, s: Key, e: Key)
    requires SimplePath(d, w, s, e)
    ensures w in FindAllPaths(d, s, e)
  {
    assert [] + w == w;
    FindAllPathsFromComplete(d, w, e, []);
  }

  /** A vertex on a listed path is a key, except possibly the end vertex. */
  lemma PathVerticesKnown(d: Dict, q: seq<Key>, s: Key, e: Key)
    requires SimplePath(d, q, s, e)
    ensures forall v :: v in q && v != e ==> v in d
  {
    forall v | v in q && v != e ensures v in d {
      var i :| 0 <= i < |q| && q[i] == v;
      assert i < |q| - 1;
    }
  }
}
