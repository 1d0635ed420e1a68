/**
 * Web Audio connections as edges.
 *
 * `a.connect(b, output, input)` adds the edge Edge(a, b, output, input);
 * connecting the same pair twice has no further effect, so the connections
 * of an audio context are a set of edges.  `a.disconnect()` removes every
 * outgoing connection of `a`.
 */
module Graph {
  datatype Edge<N> = Edge(src: N, dst: N, output: nat, input: nat)

  /** A plain `a.connect(b)` uses output 0 and input 0. */
  function Wire<N>(a: N, b: N): Edge<N>
  {
    Edge(a, b, 0, 0)
  }

  /** The edges that remain once `n` is disconnected. */
  function Without<N(==,!new)>(edges: set<Edge<N>>, n: N): (r: set<Edge<N>>)
  {
    set e | e in edges && e.src != n
  }

  /** The edges that remain once every node of `ns` is disconnected. */
  function WithoutAll<N(==,!new)>(edges: set<Edge<N>>, ns: set<N>): (r: set<Edge<N>>)
  {
    set e | e in edges && e.src !in ns
  }

  /** The edges that leave `n`. */
  function From<N(==,!new)>(edges: set<Edge<N>>, n: N): (r: set<Edge<N>>)
  {
    set e | e in edges && e.src == n
  }

  /** The (output, input) channel pairs wired from `a` to `b`. */
  function Channels<N(==,!new)>(edges: set<Edge<N>>, a: N, b: N): (r: set<(nat, nat)>)
  {
    set e | e in edges && e.src == a && e.dst == b :: (e.output, e.input)
  }

  /** Every edge of `a` leaves one of the nodes `ns`. */
  predicate AllFrom<N(==)>(a: set<Edge<N>>, ns: set<N>)
  {
    forall e :: e in a ==> e.src in ns
  }

  /** No edge of `a` leaves one of the nodes `ns`. */
  predicate NoneFrom<N(==)>(a: set<Edge<N>>, ns: set<N>)
  {
    forall e :: e in a ==> e.src !in ns
  }

  lemma WithoutAllSplit<N(!new)>(a: set<Edge<N>>, b: set<Edge<N>>, ns: set<N>)
    requires NoneFrom(a, ns) && AllFrom(b, ns)
    ensures WithoutAll(a + b, ns) == a
  {
  }

  lemma WithoutAllNone<N(!new)>(a: set<Edge<N>>, ns: set<N>)
    requires NoneFrom(a, ns)
    ensures WithoutAll(a, ns) == a
  {
  }

  lemma WithoutSplit<N(!new)>(a: set<Edge<N>>, b: set<Edge<N>>, n: N)
    requires NoneFrom(a, {n}) && AllFrom(b, {n})
    ensures Without(a + b, n) == a
  {
  }

  /** Disconnecting three nodes one after the other. */
  lemma WithoutThree<N(!new)>(a: set<Edge<N>>, x: N, y: N, z: N)
    ensures Without(Without(Without(a, x), y), z) == WithoutAll(a, {x, y, z})
  {
  }

  lemma FromSplit<N(!new)>(a: set<Edge<N>>, b: set<Edge<N>>, n: N)
    requires NoneFrom(a, {n}) && AllFrom(b, {n})
    ensures From(a + b, n) == b
  {
  }

  lemma FromUnion<N(!new)>(a: set<Edge<N>>, b: set<Edge<N>>, n: N)
    ensures From(a + b, n) == From(a, n) + From(b, n)
  {
  }

  lemma FromNone<N(!new)>(a: set<Edge<N>>, ns: set<N>, n: N)
    requires NoneFrom(a, ns) && n in ns
    ensures From(a, n) == {}
  {
  }

  /** The connections of one audio context. */
  class AudioGraph<N(==, !new)> {
    var edges: set<Edge<N>>

    constructor()
      ensures edges == {}
    {
      edges := {};
    }

    /** `e.src.connect(e.dst, e.output, e.input)`. */
    method Connect(e: Edge<N>)
      modifies this
      ensures edges == old(edges) + {e}
    {
      edges := edges + {e};
    }

    /** `n.disconnect()`. */
    method Disconnect(n: N)
      modifies this
      ensures edges == Without(old(edges), n)
    {
      edges := Without(edges, n);
    }
  }
}
