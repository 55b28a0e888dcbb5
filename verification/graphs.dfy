/**
 The weighted graph store: a dictionary from vertex key to a record holding
 a weight and an ordered neighbour list. The dictionary's insertion order is
 part of the state, because edge listing, the nearest-vertex search and the
 roulette scan all iterate over the keys in that order.
 */
module Graphs {

  type Key = string

  /** A 2-D position; coordinates are exact reals. */
  datatype Point = Point(x: real, y: real)

  /**
   One dictionary record. A record created by the base graph carries only
   `weight` and `neighbors`; `burnt` and `loc` are the keys that the growth
   rules add, absent (None) until then.
   */
  datatype Vertex = Vertex(weight: real, neighbors: seq<Key>, burnt: Option<real>, loc: Option<Point>)

  datatype Option<T> = None | Some(value: T)

  /** The exception a lookup would raise in the source. */
  datatype Failure = KeyError | ValueError

  datatype Result<T> = Ok(value: T) | Err(failure: Failure)

  /** The dictionary and the order in which its keys were inserted. */
  datatype Store = Store(dict: map<Key, Vertex>, order: seq<Key>)

  ghost predicate NoDup<T>(s: seq<T>) {
    forall i, j :: 0 <= i < j < |s| ==> s[i] != s[j]
  }

  /** The key order lists every key of the dictionary exactly once. */
  ghost predicate WellFormed(s: Store) {
    && NoDup(s.order)
    && (forall k :: k in s.dict ==> k in s.order)
    && (forall k :: k in s.order ==> k in s.dict)
  }

  lemma WellFormedSize(s: Store)
    requires WellFormed(s)
    ensures |s.dict| == |s.order|
  {
    var keys := set k | k in s.order;
    assert keys == s.dict.Keys;
    SeqElemsSize(s.order);
  }

  lemma {:induction false} SeqElemsSize<T>(q: seq<T>)
    requires NoDup(q)
    ensures |set k | k in q| == |q|
  {
    if q != [] {
      var tail := q[1..];
      assert NoDup(tail) by {
        forall i, j | 0 <= i < j < |tail| ensures tail[i] != tail[j] {
          assert tail[i] == q[i + 1] && tail[j] == q[j + 1];
        }
      }
      SeqElemsSize(tail);
      assert q[0] !in tail by {
        forall j | 0 <= j < |tail| ensures tail[j] != q[0] {
          assert tail[j] == q[j + 1];
        }
      }
      assert (set k | k in q) == (set k | k in tail) + {q[0]};
    }
  }

  class Graph {
    var dict: map<Key, Vertex>
    var order: seq<Key>

    ghost predicate Valid()
      reads this
    {
      WellFormed(Store(dict, order))
    }

    function Snapshot(): Store
      reads this
    {
      Store(dict, order)
    }

    /** Wraps a given dictionary; the source's default is the empty one. */
    constructor (initial: Store)
      requires WellFormed(initial)
      ensures Valid() && Snapshot() == initial
    {
      dict := initial.dict;
      order := initial.order;
    }

    /** The keys, each once, in insertion order. */
    method Vertices() returns (keys: seq<Key>)
      requires Valid()
      ensures keys == order
      ensures NoDup(keys) && forall k :: k in keys <==> k in dict
    {
      keys := order;
    }

    /**
     Inserts `v` with weight `w` and neighbour list `neigh` unless it is
     already a key, in which case nothing changes.
     */
    method AddVertex(v: Key, neigh: seq<Key>, w: real)
      requires Valid()
      modifies this
      ensures Valid()
      ensures v in old(dict) ==> dict == old(dict) && order == old(order)
      ensures v !in old(dict) ==>
                && dict == old(dict)[v := Vertex(w, neigh, None, None)]
                && order == old(order) + [v]
    {
      if v !in dict {
        dict := dict[v := Vertex(w, neigh, None, None)];
        order := order + [v];
      }
    }

    /** Overwrites the weight of `v`; a missing key raises KeyError and changes nothing. */
    method SetWeight(v: Key, weight: real) returns (ok: bool)
      requires Valid()
      modifies this
      ensures Valid() && order == old(order)
      ensures ok <==> v in old(dict)
      ensures ok ==> dict == old(dict)[v := old(dict)[v].(weight := weight)]
      ensures !ok ==> dict == old(dict)
    {
      ok := v in dict;
      if ok {
        dict := dict[v := dict[v].(weight := weight)];
      }
    }

    /**
     Adds the one-way link `first` -> `second`, where the pair comes in the
     order in which iterating over the two-element set yields it. A pair of
     equal keys is a one-element set, whose unpacking raises ValueError.
     */
    method AddEdge(first: Key, second: Key) returns (ok: bool)
      requires Valid()
      modifies this
      ensures Valid()
      ensures ok <==> first != second
      ensures !ok ==> dict == old(dict) && order == old(order)
      ensures ok && first in old(dict) ==>
                && order == old(order)
                && dict == old(dict)[first := old(dict)[first].(neighbors :=
                     if second in old(dict)[first].neighbors then old(dict)[first].neighbors
                     else old(dict)[first].neighbors + [second])]
      ensures ok && first !in old(dict) ==>
                && dict == old(dict)[first := Vertex(1.0, [second], None, None)]
                && order == old(order) + [first]
    {
      ok := first != second;
      if !ok {
        return;
      }
      if first in dict {
        if second !in dict[first].neighbors {
          dict := dict[first := dict[first].(neighbors := dict[first].neighbors + [second])];
        }
      } else {
        dict := dict[first := Vertex(1.0, [second], None, None)];
        order := order + [first];
      }
    }

    /**
     Lists every (vertex, neighbour) link as a one- or two-element set,
     each unordered pair once.
     */
    method Edges() returns (edges: seq<set<Key>>)
      requires Valid()
      ensures NoDup(edges)
      ensures forall e :: e in edges ==> exists u, n :: u in dict && n in dict[u].neighbors && e == {u, n}
      ensures forall u, n :: u in dict && n in dict[u].neighbors ==> {u, n} in edges
    {
      edges := [];
      var i := 0;
      while i < |order|
        invariant 0 <= i <= |order|
        invariant NoDup(edges)
        invariant forall e :: e in edges ==> exists u, n :: u in dict && n in dict[u].neighbors && e == {u, n}
        invariant forall a, n :: 0 <= a < i && n in dict[order[a]].neighbors ==> {order[a], n} in edges
      {
        var v := order[i];
        var nbrs := dict[v].neighbors;
        var j := 0;
        while j < |nbrs|
          invariant 0 <= j <= |nbrs|
          invariant NoDup(edges)
          invariant forall e :: e in edges ==> exists u, n :: u in dict && n in dict[u].neighbors && e == {u, n}
          invariant forall a, n :: 0 <= a < i && n in dict[order[a]].neighbors ==> {order[a], n} in edges
          invariant forall b :: 0 <= b < j ==> {v, nbrs[b]} in edges
        {
          var n := nbrs[j];
          assert {n, v} == {v, n};
          if {n, v} !in edges {
            edges := edges + [{v, n}];
          }
          j := j + 1;
        }
        i := i + 1;
      }
      forall u, n | u in dict && n in dict[u].neighbors ensures {u, n} in edges {
        var a :| 0 <= a < |order| && order[a] == u;
      }
    }
  }
}
