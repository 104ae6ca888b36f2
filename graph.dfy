// The directed multigraph with attributed nodes and edges that every Python
// builder fills (a networkx MultiDiGraph): nodes are kept in insertion order
// with an insertion-ordered attribute dictionary each; edges are kept in
// insertion order and may be parallel.
module Graphs {
  import opened Wrappers
  import opened Values
  import opened OrderedDicts
  import Text

  type Attrs = Dict<string, Value>

  datatype Edge = Edge(src: string, dst: string, attrs: Attrs)

  datatype Graph = Graph(nodes: Dict<string, Attrs>, edges: seq<Edge>)

  /** Every attribute dictionary is well formed and every edge joins two nodes. */
  ghost predicate WellFormed(g: Graph)
  {
    g.nodes.Valid() &&
    (forall n :: n in g.nodes.vals ==> g.nodes.vals[n].Valid()) &&
    (forall e :: e in g.edges ==> e.src in g.nodes.vals && e.dst in g.nodes.vals && e.attrs.Valid())
  }

  function EmptyGraph(): (g: Graph)
    ensures WellFormed(g) && g.nodes.keys == [] && g.edges == []
  {
    Graph(Empty(), [])
  }

  predicate HasNode(g: Graph, n: string) { n in g.nodes.vals }

  /** The value of attribute `a` of node `n`, if both exist. */
  function Attr(g: Graph, n: string, a: string): Option<Value>
  {
    if n in g.nodes.vals && a in g.nodes.vals[n].vals then Some(g.nodes.vals[n].vals[a]) else None
  }

  /** `add_node(key, **attrs)`: a new node goes last with the given
    * attributes; an existing node keeps its place and its other attributes,
    * and the given ones overwrite or extend them. */
  function NodeAdded(g: Graph, key: string, attrs: Attrs): (h: Graph)
    requires WellFormed(g) && attrs.Valid()
    ensures WellFormed(h)
    ensures h.edges == g.edges
    ensures forall n :: n in h.nodes.vals <==> n in g.nodes.vals || n == key
    ensures forall n :: n in g.nodes.vals && n != key ==> h.nodes.vals[n] == g.nodes.vals[n]
    ensures key in g.nodes.vals ==> h.nodes.keys == g.nodes.keys
    ensures key !in g.nodes.vals ==> h.nodes.keys == g.nodes.keys + [key]
    ensures forall a :: a in h.nodes.vals[key].vals <==>
              a in attrs.vals || (key in g.nodes.vals && a in g.nodes.vals[key].vals)
    ensures forall a :: a in attrs.vals ==> h.nodes.vals[key].vals[a] == attrs.vals[a]
    ensures key in g.nodes.vals ==>
              forall a :: a in g.nodes.vals[key].vals && a !in attrs.vals ==>
                h.nodes.vals[key].vals[a] == g.nodes.vals[key].vals[a]
  {
    var before: Attrs := g.nodes.GetOr(key, Empty());
    Graph(g.nodes.Put(key, before.Update(attrs)), g.edges)
  }

  /** The node table with `n` added, without attributes, if it was missing. */
  function WithNode(nodes: Dict<string, Attrs>, n: string): (d: Dict<string, Attrs>)
    requires nodes.Valid() && forall k :: k in nodes.vals ==> nodes.vals[k].Valid()
    ensures d.Valid() && forall k :: k in d.vals ==> d.vals[k].Valid()
    ensures forall k :: k in d.vals <==> k in nodes.vals || k == n
    ensures forall k :: k in nodes.vals ==> d.vals[k] == nodes.vals[k]
    ensures n !in nodes.vals ==> d.vals[n] == Empty()
    ensures |nodes.keys| <= |d.keys| && d.keys[..|nodes.keys|] == nodes.keys
  {
    if n in nodes.vals then nodes else nodes.Put(n, Empty())
  }

  /** `add_edge(u, v, **attrs)`: a missing endpoint is first created with no
    * attributes (u before v), then a new edge is appended, parallel to any
    * edge already joining u to v. */
  function EdgeAdded(g: Graph, u: string, v: string, attrs: Attrs): (h: Graph)
    requires WellFormed(g) && attrs.Valid()
    ensures WellFormed(h)
    ensures h.edges == g.edges + [Edge(u, v, attrs)]
    ensures forall n :: n in h.nodes.vals <==> n in g.nodes.vals || n == u || n == v
    ensures forall n :: n in g.nodes.vals ==> h.nodes.vals[n] == g.nodes.vals[n]
    ensures u !in g.nodes.vals ==> h.nodes.vals[u] == Empty()
    ensures v !in g.nodes.vals ==> h.nodes.vals[v] == Empty()
    ensures |g.nodes.keys| <= |h.nodes.keys| && h.nodes.keys[..|g.nodes.keys|] == g.nodes.keys
  {
    var withU := WithNode(g.nodes, u);
    var withV := WithNode(withU, v);
    assert withV.keys[..|g.nodes.keys|] == g.nodes.keys by {
      assert withV.keys[..|withU.keys|] == withU.keys;
    }
    AppendEdgeWellFormed(g, withV, Edge(u, v, attrs));
    Graph(withV, g.edges + [Edge(u, v, attrs)])
  }

  /** Appending an edge between two nodes of a larger node table keeps a
    * graph well formed. */
  lemma AppendEdgeWellFormed(g: Graph, d: Dict<string, Attrs>, e: Edge)
    requires WellFormed(g) && d.Valid() && forall k :: k in d.vals ==> d.vals[k].Valid()
    requires forall k :: k in g.nodes.vals ==> k in d.vals
    requires e.src in d.vals && e.dst in d.vals && e.attrs.Valid()
    ensures WellFormed(Graph(d, g.edges + [e]))
  {
    assert forall x :: x in g.edges + [e] ==> x in g.edges || x == e;
  }

  /** The edges, in order, that neither start nor end at `n`. */
  function EdgesAvoiding(es: seq<Edge>, n: string): (r: seq<Edge>)
    ensures forall e :: e in r <==> e in es && e.src != n && e.dst != n
    ensures |r| <= |es|
  {
    if |es| == 0 then []
    else
      var rest := EdgesAvoiding(es[1..], n);
      assert forall e :: e in es <==> e == es[0] || e in es[1..];
      if es[0].src != n && es[0].dst != n then [es[0]] + rest else rest
  }

  /** `remove_node(key)`: the node goes with every edge touching it; removing
    * a node that is not there raises NetworkXError. */
  function NodeRemoved(g: Graph, key: string): (r: Result<Graph, PyError>)
    requires WellFormed(g)
    ensures r.Failure? <==> key !in g.nodes.vals
    ensures r.Success? ==> WellFormed(r.value)
    ensures r.Success? ==> forall n :: n in r.value.nodes.vals <==> n in g.nodes.vals && n != key
    ensures r.Success? ==> forall n :: n in r.value.nodes.vals ==> r.value.nodes.vals[n] == g.nodes.vals[n]
    ensures r.Success? ==> forall e :: e in r.value.edges <==> e in g.edges && e.src != key && e.dst != key
    ensures r.Success? ==> r.value.nodes.keys == Without(g.nodes.keys, key) && r.value.edges == EdgesAvoiding(g.edges, key)
  {
    if key !in g.nodes.vals then Failure(NetworkXError("The node is not in the graph."))
    else Success(Graph(g.nodes.Remove(key), EdgesAvoiding(g.edges, key)))
  }

  /** The surviving edges keep their order and their multiplicity: the
    * filter works piece by piece ... */
  lemma {:induction false} EdgesAvoidingAppend(a: seq<Edge>, b: seq<Edge>, n: string)
    ensures EdgesAvoiding(a + b, n) == EdgesAvoiding(a, n) + EdgesAvoiding(b, n)
  {
    if |a| > 0 {
      assert (a + b)[0] == a[0] && (a + b)[1..] == a[1..] + b;
      EdgesAvoidingAppend(a[1..], b, n);
    } else {
      assert a + b == b;
    }
  }

  /** ... and keeps every edge that does not touch the node. */
  lemma {:induction false} EdgesAvoidingNone(es: seq<Edge>, n: string)
    requires forall e :: e in es ==> e.src != n && e.dst != n
    ensures EdgesAvoiding(es, n) == es
  {
    if |es| > 0 {
      assert es[0] in es;
      assert forall e :: e in es[1..] ==> e in es;
      EdgesAvoidingNone(es[1..], n);
      assert [es[0]] + es[1..] == es;
    }
  }

  /** `remove_node(key)` keeps the other nodes and the surviving edges in
    * their order: removing the node from the key list and the edges from
    * the edge list commutes with splitting either list anywhere, and leaves
    * a part untouched by the node as it is. */
  lemma NodeRemovedInOrder(g: Graph, key: string, i: nat, j: nat)
    requires WellFormed(g) && key in g.nodes.vals
    requires i <= |g.nodes.keys| && j <= |g.edges|
    ensures NodeRemoved(g, key).Success?
    ensures NodeRemoved(g, key).value.nodes.keys == Without(g.nodes.keys[..i], key) + Without(g.nodes.keys[i..], key)
    ensures NodeRemoved(g, key).value.edges == EdgesAvoiding(g.edges[..j], key) + EdgesAvoiding(g.edges[j..], key)
    ensures key !in g.nodes.keys[..i] ==> Without(g.nodes.keys[..i], key) == g.nodes.keys[..i]
    ensures (forall e :: e in g.edges[..j] ==> e.src != key && e.dst != key) ==>
              EdgesAvoiding(g.edges[..j], key) == g.edges[..j]
  {
    assert g.nodes.keys[..i] + g.nodes.keys[i..] == g.nodes.keys;
    assert g.edges[..j] + g.edges[j..] == g.edges;
    WithoutAppend(g.nodes.keys[..i], g.nodes.keys[i..], key);
    EdgesAvoidingAppend(g.edges[..j], g.edges[j..], key);
    if key !in g.nodes.keys[..i] {
      WithoutAbsent(g.nodes.keys[..i], key);
    }
    if forall e :: e in g.edges[..j] ==> e.src != key && e.dst != key {
      EdgesAvoidingNone(g.edges[..j], key);
    }
  }

  lemma AttrAfterAddNode(g: Graph, key: string, pairs: seq<(string, Value)>, n: string, a: string)
    requires WellFormed(g)
    ensures Attr(NodeAdded(g, key, FromPairs(pairs)), n, a)
         == if n == key && a in FromPairs(pairs).vals then Some(FromPairs(pairs).vals[a]) else Attr(g, n, a)
  {
  }

  lemma AttrAfterAddEdge(g: Graph, u: string, v: string, attrs: Attrs, n: string, a: string)
    requires WellFormed(g) && attrs.Valid()
    ensures Attr(EdgeAdded(g, u, v, attrs), n, a) == Attr(g, n, a)
  {
  }

  /** `G.nodes[n][a] = v` on a node that exists. */
  function AttrSet(g: Graph, n: string, a: string, v: Value): (h: Graph)
    requires WellFormed(g) && n in g.nodes.vals
    ensures WellFormed(h)
    ensures h.edges == g.edges && h.nodes.keys == g.nodes.keys
    ensures h.nodes.vals == g.nodes.vals[n := g.nodes.vals[n].Put(a, v)]
  {
    Graph(g.nodes.Put(n, g.nodes.vals[n].Put(a, v)), g.edges)
  }

  /** `del G.nodes[n][a]` on an attribute that exists. */
  function AttrDeleted(g: Graph, n: string, a: string): (h: Graph)
    requires WellFormed(g) && n in g.nodes.vals
    ensures WellFormed(h)
    ensures h.edges == g.edges && h.nodes.keys == g.nodes.keys
    ensures h.nodes.vals == g.nodes.vals[n := g.nodes.vals[n].Remove(a)]
  {
    Graph(g.nodes.Put(n, g.nodes.vals[n].Remove(a)), g.edges)
  }

  /** Adding the same node with the same attributes twice is adding it once. */
  lemma AddNodeIdempotent(g: Graph, key: string, attrs: Attrs)
    requires WellFormed(g) && attrs.Valid()
    ensures NodeAdded(NodeAdded(g, key, attrs), key, attrs) == NodeAdded(g, key, attrs)
  {
    var before: Attrs := g.nodes.GetOr(key, Empty());
    var h := NodeAdded(g, key, attrs);
    assert h.nodes == g.nodes.Put(key, before.Update(attrs));
    UpdateAgain(before, attrs);
    PutSame(h.nodes, key);
  }

  /** `d.update(a)` a second time changes nothing. */
  lemma UpdateAgain(x: Attrs, a: Attrs)
    requires x.Valid() && a.Valid()
    ensures x.Update(a).Update(a) == x.Update(a)
  {
    UpdateIdempotent(x, a);
  }

  /** Writing back the value a key already has changes nothing. */
  lemma PutSame(d: Dict<string, Attrs>, k: string)
    requires d.Valid() && k in d.vals
    ensures d.Put(k, d.vals[k]) == d
  {
    assert d.vals[k := d.vals[k]] == d.vals;
  }

  /** Adding an edge twice gives two parallel edges. */
  lemma AddEdgeTwiceIsParallel(g: Graph, u: string, v: string, attrs: Attrs)
    requires WellFormed(g) && attrs.Valid()
    ensures var h := EdgeAdded(EdgeAdded(g, u, v, attrs), u, v, attrs);
            |h.edges| == |g.edges| + 2 && h.edges[|g.edges|] == h.edges[|g.edges| + 1] == Edge(u, v, attrs)
  {
  }

  /** The first occurrences of the values, in order. */
  function Distinct(xs: seq<string>): (r: seq<string>)
    ensures forall x :: x in r <==> x in xs
    ensures forall i, j :: 0 <= i < j < |r| ==> r[i] != r[j]
  {
    if |xs| == 0 then []
    else
      var d := Distinct(xs[..|xs| - 1]);
      var x := xs[|xs| - 1];
      assert forall y :: y in xs <==> y in xs[..|xs| - 1] || y == x;
      if x in d then d else d + [x]
  }

  function Targets(es: seq<Edge>, n: string): (r: seq<string>)
    ensures forall x :: x in r <==> exists e :: e in es && e.src == n && e.dst == x
  {
    if |es| == 0 then []
    else
      var rest := Targets(es[..|es| - 1], n);
      var e := es[|es| - 1];
      assert forall f :: f in es <==> f in es[..|es| - 1] || f == e;
      if e.src == n then rest + [e.dst] else rest
  }

  /** The first position of a value in a list. */
  function IndexOf(xs: seq<string>, x: string): (k: nat)
    requires x in xs
    ensures k < |xs| && xs[k] == x && x !in xs[..k]
  {
    if xs[0] == x then 0
    else
      var k := IndexOf(xs[1..], x);
      assert xs[..k + 1] == [xs[0]] + xs[1..][..k];
      k + 1
  }

  /** A value's first position does not move when values are appended. */
  lemma {:induction false} IndexOfPrefix(xs: seq<string>, ys: seq<string>, x: string)
    requires x in xs
    ensures x in xs + ys && IndexOf(xs + ys, x) == IndexOf(xs, x)
  {
    assert (xs + ys)[0] == xs[0];
    if xs[0] != x {
      assert (xs + ys)[1..] == xs[1..] + ys;
      IndexOfPrefix(xs[1..], ys, x);
    }
  }

  /** `Distinct` lists the values in the order of their first occurrence. */
  lemma {:induction false} DistinctInOrder(xs: seq<string>)
    ensures forall i, j :: 0 <= i < j < |Distinct(xs)| ==>
              IndexOf(xs, Distinct(xs)[i]) < IndexOf(xs, Distinct(xs)[j])
  {
    if |xs| > 0 {
      var p := xs[..|xs| - 1];
      var x := xs[|xs| - 1];
      var d := Distinct(p);
      DistinctInOrder(p);
      assert p + [x] == xs;
      forall y | y in d
        ensures IndexOf(xs, y) == IndexOf(p, y)
      {
        IndexOfPrefix(p, [x], y);
      }
      if x !in d {
        assert x !in p;
        assert IndexOf(xs, x) == |p| by {
          assert xs[..|p|] == p;
        }
        assert Distinct(xs) == d + [x];
        forall i, j | 0 <= i < j < |Distinct(xs)|
          ensures IndexOf(xs, Distinct(xs)[i]) < IndexOf(xs, Distinct(xs)[j])
        {
          if j < |d| {
            assert Distinct(xs)[i] == d[i] && Distinct(xs)[j] == d[j];
          } else {
            assert Distinct(xs)[i] == d[i] && d[i] in d;
          }
        }
      }
    }
  }

  /** The targets of the edges leaving `n`, in edge order, piece by piece. */
  lemma {:induction false} TargetsAppend(a: seq<Edge>, b: seq<Edge>, n: string)
    ensures Targets(a + b, n) == Targets(a, n) + Targets(b, n)
    decreases |b|
  {
    if |b| == 0 {
      assert a + b == a;
    } else {
      var k := |b| - 1;
      assert (a + b)[..|a + b| - 1] == a + b[..k];
      assert b[..|b| - 1] == b[..k];
      TargetsAppend(a, b[..k], n);
    }
  }

  /** `neighbors(n)`: the successors of `n` in the order each first became one. */
  function Successors(g: Graph, n: string): (r: seq<string>)
    ensures forall x :: x in r <==> exists e :: e in g.edges && e.src == n && e.dst == x
    ensures forall i, j :: 0 <= i < j < |r| ==> r[i] != r[j]
  {
    Distinct(Targets(g.edges, n))
  }

  /** The successors come in the order in which each first became one. */
  lemma SuccessorsInOrder(g: Graph, n: string)
    ensures forall i, j :: 0 <= i < j < |Successors(g, n)| ==>
              IndexOf(Targets(g.edges, n), Successors(g, n)[i]) < IndexOf(Targets(g.edges, n), Successors(g, n)[j])
  {
    DistinctInOrder(Targets(g.edges, n));
  }

  function EdgesBetween(es: seq<Edge>, u: string, v: string): (r: seq<Edge>)
    ensures forall e :: e in r <==> e in es && e.src == u && e.dst == v
  {
    if |es| == 0 then []
    else
      var rest := EdgesBetween(es[1..], u, v);
      assert forall e :: e in es <==> e == es[0] || e in es[1..];
      if es[0].src == u && es[0].dst == v then [es[0]] + rest else rest
  }

  function EdgesToEach(es: seq<Edge>, u: string, vs: seq<string>): (r: seq<Edge>)
    ensures forall e :: e in r <==> e in es && e.src == u && e.dst in vs
  {
    if |vs| == 0 then []
    else
      var r := EdgesBetween(es, u, vs[0]) + EdgesToEach(es, u, vs[1..]);
      assert forall x :: x in vs <==> x == vs[0] || x in vs[1..];
      r
  }

  function EdgesFromEach(g: Graph, ns: seq<string>): (r: seq<Edge>)
    ensures forall e :: e in r <==> e in g.edges && e.src in ns
  {
    if |ns| == 0 then []
    else
      var r := EdgesToEach(g.edges, ns[0], Successors(g, ns[0])) + EdgesFromEach(g, ns[1..]);
      assert forall x :: x in ns <==> x == ns[0] || x in ns[1..];
      r
  }

  /** The order in which a graph yields its edges: by source in node order,
    * then by target in successor order, then in insertion order. */
  function EdgeOrder(g: Graph): (r: seq<Edge>)
    requires WellFormed(g)
    ensures forall e :: e in r <==> e in g.edges
  {
    EdgesFromEach(g, g.nodes.keys)
  }

  function CountWhere(es: seq<Edge>, p: Edge -> bool): nat
  {
    if |es| == 0 then 0 else (if p(es[0]) then 1 else 0) + CountWhere(es[1..], p)
  }

  lemma {:induction false} CountWhereSplit(es: seq<Edge>, p: Edge -> bool, q: Edge -> bool, r: Edge -> bool)
    requires forall e :: r(e) == (p(e) || q(e))
    requires forall e :: !(p(e) && q(e))
    ensures CountWhere(es, r) == CountWhere(es, p) + CountWhere(es, q)
  {
    if |es| > 0 {
      CountWhereSplit(es[1..], p, q, r);
    }
  }

  lemma {:induction false} CountWhereSame(es: seq<Edge>, p: Edge -> bool, q: Edge -> bool)
    requires forall e :: e in es ==> p(e) == q(e)
    ensures CountWhere(es, p) == CountWhere(es, q)
  {
    if |es| > 0 {
      CountWhereSame(es[1..], p, q);
    }
  }

  lemma {:induction false} CountWhereAll(es: seq<Edge>, p: Edge -> bool)
    requires forall e :: e in es ==> p(e)
    ensures CountWhere(es, p) == |es|
  {
    if |es| > 0 {
      CountWhereAll(es[1..], p);
    }
  }

  lemma {:induction false} CountWhereAppend(a: seq<Edge>, b: seq<Edge>, p: Edge -> bool)
    ensures CountWhere(a + b, p) == CountWhere(a, p) + CountWhere(b, p)
  {
    if |a| > 0 {
      assert (a + b)[1..] == a[1..] + b;
      CountWhereAppend(a[1..], b, p);
    } else {
      assert a + b == b;
    }
  }

  lemma {:induction false} EdgesBetweenCount(es: seq<Edge>, u: string, v: string, p: Edge -> bool)
    ensures CountWhere(EdgesBetween(es, u, v), p) == CountWhere(es, (e: Edge) => e.src == u && e.dst == v && p(e))
  {
    if |es| > 0 {
      EdgesBetweenCount(es[1..], u, v, p);
      var rest := EdgesBetween(es[1..], u, v);
      assert ([es[0]] + rest)[1..] == rest;
    }
  }

  lemma {:induction false} EdgesToEachCount(es: seq<Edge>, u: string, vs: seq<string>, p: Edge -> bool)
    requires forall i, j :: 0 <= i < j < |vs| ==> vs[i] != vs[j]
    ensures CountWhere(EdgesToEach(es, u, vs), p) == CountWhere(es, (e: Edge) => e.src == u && e.dst in vs && p(e))
  {
    if |vs| == 0 {
      CountWhereSame(es, (e: Edge) => e.src == u && e.dst in vs && p(e), (e: Edge) => false);
      CountWhereSplit(es, (e: Edge) => false, (e: Edge) => false, (e: Edge) => false);
    } else {
      EdgesBetweenCount(es, u, vs[0], p);
      EdgesToEachCount(es, u, vs[1..], p);
      CountWhereAppend(EdgesBetween(es, u, vs[0]), EdgesToEach(es, u, vs[1..]), p);
      assert vs[0] !in vs[1..];
      CountWhereSplit(es, (e: Edge) => e.src == u && e.dst == vs[0] && p(e),
                      (e: Edge) => e.src == u && e.dst in vs[1..] && p(e),
                      (e: Edge) => e.src == u && e.dst in vs && p(e));
    }
  }

  lemma {:induction false} EdgesFromEachCount(g: Graph, ns: seq<string>, p: Edge -> bool)
    requires forall i, j :: 0 <= i < j < |ns| ==> ns[i] != ns[j]
    ensures CountWhere(EdgesFromEach(g, ns), p) == CountWhere(g.edges, (e: Edge) => e.src in ns && p(e))
  {
    if |ns| == 0 {
      CountWhereSame(g.edges, (e: Edge) => e.src in ns && p(e), (e: Edge) => false);
      CountWhereSplit(g.edges, (e: Edge) => false, (e: Edge) => false, (e: Edge) => false);
    } else {
      var n := ns[0];
      var succ := Successors(g, n);
      EdgesToEachCount(g.edges, n, succ, p);
      CountWhereSame(g.edges, (e: Edge) => e.src == n && e.dst in succ && p(e), (e: Edge) => e.src == n && p(e));
      EdgesFromEachCount(g, ns[1..], p);
      CountWhereAppend(EdgesToEach(g.edges, n, succ), EdgesFromEach(g, ns[1..]), p);
      assert n !in ns[1..];
      CountWhereSplit(g.edges, (e: Edge) => e.src == n && p(e), (e: Edge) => e.src in ns[1..] && p(e),
                      (e: Edge) => e.src in ns && p(e));
    }
  }

  /** Iterating over the edges meets every edge of the graph once: for any
    * property, as many iterated edges have it as edges of the graph. */
  lemma EdgeOrderCount(g: Graph, p: Edge -> bool)
    requires WellFormed(g)
    ensures CountWhere(EdgeOrder(g), p) == CountWhere(g.edges, p)
  {
    EdgesFromEachCount(g, g.nodes.keys, p);
    CountWhereSame(g.edges, (e: Edge) => e.src in g.nodes.keys && p(e), p);
  }

  lemma EdgeOrderLength(g: Graph)
    requires WellFormed(g)
    ensures |EdgeOrder(g)| == |g.edges|
  {
    EdgeOrderCount(g, (e: Edge) => true);
    CountWhereAll(g.edges, (e: Edge) => true);
    CountWhereAll(EdgeOrder(g), (e: Edge) => true);
  }

  // ---- Operations recorded by the builders --------------------------------

  datatype GraphOp =
    | AddNodeOp(key: string, attrs: seq<(string, Value)>)
    | AddEdgeOp(src: string, dst: string, attrs: seq<(string, Value)>)

  /** What one input row does to the graph: the operations carried out, and
    * the exception, if any, raised after them. */
  datatype Step = Step(ops: seq<GraphOp>, failure: Option<PyError>)

  function Do(ops: seq<GraphOp>): Step { Step(ops, None) }

  function Raise(e: PyError): Step { Step([], Some(e)) }

  /** Sequencing within a row: the second part runs only if the first did not raise. */
  function Then(a: Step, b: Step): (r: Step)
    ensures a.failure.Some? ==> r == a
    ensures a.failure.None? ==> r.ops == a.ops + b.ops && r.failure == b.failure
  {
    if a.failure.Some? then a else Step(a.ops + b.ops, b.failure)
  }

  function ApplyOp(g: Graph, op: GraphOp): (h: Graph)
    requires WellFormed(g)
    ensures WellFormed(h)
  {
    match op
    case AddNodeOp(key, attrs) => NodeAdded(g, key, FromPairs(attrs))
    case AddEdgeOp(u, v, attrs) => EdgeAdded(g, u, v, FromPairs(attrs))
  }

  function ApplyOps(g: Graph, ops: seq<GraphOp>): (h: Graph)
    requires WellFormed(g)
    ensures WellFormed(h)
    decreases |ops|
  {
    if |ops| == 0 then g else ApplyOps(ApplyOp(g, ops[0]), ops[1..])
  }

  lemma {:induction false} ApplyOpsAppend(g: Graph, a: seq<GraphOp>, b: seq<GraphOp>)
    requires WellFormed(g)
    ensures ApplyOps(g, a + b) == ApplyOps(ApplyOps(g, a), b)
    decreases |a|
  {
    if |a| > 0 {
      var g1 := ApplyOp(g, a[0]);
      assert (a + b)[0] == a[0];
      assert (a + b)[1..] == a[1..] + b;
      assert ApplyOps(g, a + b) == ApplyOps(g1, a[1..] + b);
      ApplyOpsAppend(g1, a[1..], b);
    } else {
      assert a + b == b;
    }
  }

  /** The edges a sequence of operations appends, in order. */
  function EdgesOf(ops: seq<GraphOp>): seq<Edge>
  {
    if |ops| == 0 then []
    else
      match ops[0]
      case AddEdgeOp(u, v, attrs) => [Edge(u, v, FromPairs(attrs))] + EdgesOf(ops[1..])
      case AddNodeOp(_, _) => EdgesOf(ops[1..])
  }

  /** Operations only ever append edges, and exactly the ones they name. */
  lemma {:induction false} ApplyOpsEdges(g: Graph, ops: seq<GraphOp>)
    requires WellFormed(g)
    ensures ApplyOps(g, ops).edges == g.edges + EdgesOf(ops)
    decreases |ops|
  {
    if |ops| > 0 {
      var h := ApplyOp(g, ops[0]);
      assert ApplyOps(g, ops) == ApplyOps(h, ops[1..]);
      ApplyOpsEdges(h, ops[1..]);
      OpEdges(g, ops[0]);
      EdgesOfCons(ops);
      Text.AppendAssoc(g.edges, EdgesOf([ops[0]]), EdgesOf(ops[1..]));
    } else {
      assert EdgesOf(ops) == [];
      assert g.edges + [] == g.edges;
    }
  }

  lemma EdgesOfCons(ops: seq<GraphOp>)
    requires |ops| > 0
    ensures EdgesOf(ops) == EdgesOf([ops[0]]) + EdgesOf(ops[1..])
  {
    assert [ops[0]][1..] == [];
  }

  lemma OpEdges(g: Graph, op: GraphOp)
    requires WellFormed(g)
    ensures ApplyOp(g, op).edges == g.edges + EdgesOf([op])
  {
    assert [op][1..] == [];
  }

  lemma {:induction false} EdgesOfAppend(a: seq<GraphOp>, b: seq<GraphOp>)
    ensures EdgesOf(a + b) == EdgesOf(a) + EdgesOf(b)
  {
    if |a| > 0 {
      assert (a + b)[0] == a[0];
      assert (a + b)[1..] == a[1..] + b;
      EdgesOfAppend(a[1..], b);
    } else {
      assert a + b == b;
    }
  }

  /** Whether an operation sets attribute `a` of node `n`. */
  predicate Sets(op: GraphOp, n: string, a: string)
  {
    op.AddNodeOp? && op.key == n && a in FromPairs(op.attrs).vals
  }

  /** One operation's effect on one attribute. */
  lemma OpAttr(g: Graph, op: GraphOp, n: string, a: string)
    requires WellFormed(g)
    ensures Attr(ApplyOp(g, op), n, a) == if Sets(op, n, a) then Some(FromPairs(op.attrs).vals[a]) else Attr(g, n, a)
  {
    match op
    case AddNodeOp(key, attrs) => AttrAfterAddNode(g, key, attrs, n, a);
    case AddEdgeOp(u, v, attrs) => AttrAfterAddEdge(g, u, v, FromPairs(attrs), n, a);
  }

  /** Attribute `a` of node `n` is unchanged by operations that never set it. */
  lemma {:induction false} ApplyOpsAttrUntouched(g: Graph, ops: seq<GraphOp>, n: string, a: string)
    requires WellFormed(g)
    requires forall op :: op in ops ==> !Sets(op, n, a)
    ensures Attr(ApplyOps(g, ops), n, a) == Attr(g, n, a)
    decreases |ops|
  {
    if |ops| > 0 {
      var h := ApplyOp(g, ops[0]);
      assert ApplyOps(g, ops) == ApplyOps(h, ops[1..]);
      assert !Sets(ops[0], n, a);
      OpAttr(g, ops[0], n, a);
      ApplyOpsAttrUntouched(h, ops[1..], n, a);
    }
  }

  /** Attribute `a` of node `n` ends up as `v` when every operation that sets
    * it sets it to `v`, and either it was `v` already or one of them sets it. */
  lemma {:induction false} ApplyOpsAttrWritten(g: Graph, ops: seq<GraphOp>, n: string, a: string, v: Value)
    requires WellFormed(g)
    requires forall op :: op in ops && Sets(op, n, a) ==> FromPairs(op.attrs).vals[a] == v
    requires Attr(g, n, a) == Some(v) || exists op :: op in ops && Sets(op, n, a)
    ensures Attr(ApplyOps(g, ops), n, a) == Some(v)
    decreases |ops|
  {
    if |ops| > 0 {
      var h := ApplyOp(g, ops[0]);
      assert ApplyOps(g, ops) == ApplyOps(h, ops[1..]);
      OpAttr(g, ops[0], n, a);
      if Attr(h, n, a) != Some(v) {
        var op :| op in ops && Sets(op, n, a);
        if op == ops[0] {
          assert false;
        }
        assert op in ops[1..];
      }
      ApplyOpsAttrWritten(h, ops[1..], n, a, v);
    }
  }

  /** The last operation that sets attribute `a` of node `n` decides it. */
  lemma {:induction false} LastWriter(g: Graph, ops: seq<GraphOp>, i: nat, n: string, a: string)
    requires WellFormed(g) && i < |ops| && Sets(ops[i], n, a)
    requires forall j :: i < j < |ops| ==> !Sets(ops[j], n, a)
    ensures Attr(ApplyOps(g, ops), n, a) == Some(FromPairs(ops[i].attrs).vals[a])
    decreases i
  {
    if i == 0 {
      FirstWriter(g, ops, n, a);
    } else {
      ApplyOpsCons(g, ops);
      LaterOpsTail(ops, i, n, a);
      LastWriter(ApplyOp(g, ops[0]), ops[1..], i - 1, n, a);
    }
  }

  lemma ApplyOpsCons(g: Graph, ops: seq<GraphOp>)
    requires WellFormed(g) && |ops| > 0
    ensures ApplyOps(g, ops) == ApplyOps(ApplyOp(g, ops[0]), ops[1..])
  {
  }

  lemma LaterOpsTail(ops: seq<GraphOp>, i: nat, n: string, a: string)
    requires 0 < i < |ops| && Sets(ops[i], n, a)
    requires forall j :: i < j < |ops| ==> !Sets(ops[j], n, a)
    ensures Sets(ops[1..][i - 1], n, a) && ops[1..][i - 1] == ops[i]
    ensures forall j :: i - 1 < j < |ops[1..]| ==> !Sets(ops[1..][j], n, a)
  {
    forall j | i - 1 < j < |ops[1..]|
      ensures !Sets(ops[1..][j], n, a)
    {
      assert ops[1..][j] == ops[j + 1];
    }
  }

  lemma FirstWriter(g: Graph, ops: seq<GraphOp>, n: string, a: string)
    requires WellFormed(g) && 0 < |ops| && Sets(ops[0], n, a)
    requires forall j :: 0 < j < |ops| ==> !Sets(ops[j], n, a)
    ensures Attr(ApplyOps(g, ops), n, a) == Some(FromPairs(ops[0].attrs).vals[a])
  {
    var h := ApplyOp(g, ops[0]);
    ApplyOpsCons(g, ops);
    OpAttr(g, ops[0], n, a);
    var rest := ops[1..];
    assert forall op :: op in rest ==> !Sets(op, n, a) by {
      assert forall j :: 0 <= j < |rest| ==> rest[j] == ops[j + 1];
    }
    ApplyOpsAttrUntouched(h, rest, n, a);
  }

  /** The effect of a node call followed by an edge: one edge appended, its
    * endpoints present, and only the called node's attributes written. */
  lemma {:induction false} NodeThenEdge(g: Graph, k: string, kw: seq<(string, Value)>, x: string, y: string,
                                        ekw: seq<(string, Value)>)
    requires WellFormed(g)
    ensures var h := ApplyOps(g, [AddNodeOp(k, kw), AddEdgeOp(x, y, ekw)]);
            h.edges == g.edges + [Edge(x, y, FromPairs(ekw))] &&
            (forall n :: n in h.nodes.vals <==> n in g.nodes.vals || n == k || n == x || n == y) &&
            (forall n, a :: Attr(h, n, a) == if n == k && a in FromPairs(kw).vals then Some(FromPairs(kw).vals[a]) else Attr(g, n, a))
  {
    var ops := [AddNodeOp(k, kw), AddEdgeOp(x, y, ekw)];
    var g1 := ApplyOp(g, ops[0]);
    var g2 := ApplyOp(g1, ops[1]);
    ApplyOpsCons(g, ops);
    ApplyOpsCons(g1, ops[1..]);
    assert ops[1..][1..] == [];
    assert ApplyOps(g, ops) == g2;
    forall n, a
      ensures Attr(g2, n, a) == if n == k && a in FromPairs(kw).vals then Some(FromPairs(kw).vals[a]) else Attr(g, n, a)
    {
      OpAttr(g, ops[0], n, a);
      OpAttr(g1, ops[1], n, a);
    }
  }

  /** Two node calls and an edge from the first node to the second. */
  lemma {:induction false} NodesThenEdge(g: Graph, u: string, ukw: seq<(string, Value)>, v: string, vkw: seq<(string, Value)>,
                                         ekw: seq<(string, Value)>)
    requires WellFormed(g)
    ensures var h := ApplyOps(g, [AddNodeOp(u, ukw), AddNodeOp(v, vkw), AddEdgeOp(u, v, ekw)]);
            h.edges == g.edges + [Edge(u, v, FromPairs(ekw))] &&
            (forall n :: n in h.nodes.vals <==> n in g.nodes.vals || n == u || n == v) &&
            (forall n, a :: Attr(h, n, a) ==
               if n == v && a in FromPairs(vkw).vals then Some(FromPairs(vkw).vals[a])
               else if n == u && a in FromPairs(ukw).vals then Some(FromPairs(ukw).vals[a])
               else Attr(g, n, a))
  {
    var ops := [AddNodeOp(u, ukw), AddNodeOp(v, vkw), AddEdgeOp(u, v, ekw)];
    var g1 := ApplyOp(g, ops[0]);
    ApplyOpsCons(g, ops);
    assert ops[1..] == [AddNodeOp(v, vkw), AddEdgeOp(u, v, ekw)];
    NodeThenEdge(g1, v, vkw, u, v, ekw);
    forall n, a
      ensures Attr(g1, n, a) == if n == u && a in FromPairs(ukw).vals then Some(FromPairs(ukw).vals[a]) else Attr(g, n, a)
    {
      OpAttr(g, ops[0], n, a);
    }
  }

  /** Operations that only add never lose a node. */
  lemma {:induction false} ApplyOpsKeepsNodes(g: Graph, ops: seq<GraphOp>)
    requires WellFormed(g)
    ensures forall n :: n in g.nodes.vals ==> n in ApplyOps(g, ops).nodes.vals
    decreases |ops|
  {
    if |ops| > 0 {
      ApplyOpsKeepsNodes(ApplyOp(g, ops[0]), ops[1..]);
    }
  }

  /** Rows are processed in order until one raises. */
  function Ingest(g: Graph, steps: seq<Step>): (r: (Graph, Option<PyError>))
    requires WellFormed(g)
    ensures WellFormed(r.0)
    decreases |steps|
  {
    if |steps| == 0 then (g, None)
    else
      var h := ApplyOps(g, steps[0].ops);
      if steps[0].failure.Some? then (h, steps[0].failure) else Ingest(h, steps[1..])
  }

  /** Processing two batches of rows one after the other is processing them
    * together, unless the first batch raised. */
  lemma {:induction false} IngestAppend(g: Graph, a: seq<Step>, b: seq<Step>)
    requires WellFormed(g)
    ensures Ingest(g, a + b) == (var r := Ingest(g, a); if r.1.Some? then r else Ingest(r.0, b))
    decreases |a|
  {
    if |a| == 0 {
      assert a + b == b;
    } else {
      assert (a + b)[0] == a[0];
      assert (a + b)[1..] == a[1..] + b;
      var h := ApplyOps(g, a[0].ops);
      if a[0].failure.None? {
        IngestAppend(h, a[1..], b);
      }
    }
  }

  /** Rows after a raising row are never processed. */
  lemma {:induction false} IngestStopsAtFailure(g: Graph, steps: seq<Step>, i: nat)
    requires WellFormed(g)
    requires i < |steps| && steps[i].failure.Some?
    ensures Ingest(g, steps) == Ingest(g, steps[..i + 1])
    decreases i
  {
    if i > 0 {
      var h := ApplyOps(g, steps[0].ops);
      if steps[0].failure.None? {
        assert steps[1..][..i] == steps[..i + 1][1..];
        IngestStopsAtFailure(h, steps[1..], i - 1);
      }
    }
  }

  // ---- The graph object ----------------------------------------------------

  class PropertyGraph {
    var nodes: Dict<string, Attrs>
    var edges: seq<Edge>

    ghost predicate Valid()
      reads this
    {
      WellFormed(Graph(nodes, edges))
    }

    function State(): Graph
      reads this
    {
      Graph(nodes, edges)
    }

    constructor ()
      ensures Valid() && State() == EmptyGraph()
    {
      nodes := Empty();
      edges := [];
    }

    method AddNode(key: string, attrs: seq<(string, Value)>)
      requires Valid()
      modifies this
      ensures Valid()
      ensures State() == NodeAdded(old(State()), key, FromPairs(attrs))
    {
      var before: Attrs := nodes.GetOr(key, Empty());
      nodes := nodes.Put(key, before.Update(FromPairs(attrs)));
    }

    method AddEdge(u: string, v: string, attrs: seq<(string, Value)>)
      requires Valid()
      modifies this
      ensures Valid()
      ensures State() == EdgeAdded(old(State()), u, v, FromPairs(attrs))
    {
      if u !in nodes.vals {
        nodes := nodes.Put(u, Empty());
      }
      if v !in nodes.vals {
        nodes := nodes.Put(v, Empty());
      }
      edges := edges + [Edge(u, v, FromPairs(attrs))];
    }

    method RemoveNode(key: string) returns (failure: Option<PyError>)
      requires Valid()
      modifies this
      ensures Valid()
      ensures failure.Some? <==> key !in old(nodes.vals)
      ensures failure.None? ==> Success(State()) == NodeRemoved(old(State()), key)
      ensures failure.Some? ==> State() == old(State())
    {
      if key !in nodes.vals {
        return Some(NetworkXError("The node is not in the graph."));
      }
      nodes := nodes.Remove(key);
      edges := EdgesAvoiding(edges, key);
      return None;
    }

    method SetAttr(n: string, a: string, v: Value)
      requires Valid() && n in nodes.vals
      modifies this
      ensures Valid()
      ensures State() == AttrSet(old(State()), n, a, v)
    {
      nodes := nodes.Put(n, nodes.vals[n].Put(a, v));
    }

    method DelAttr(n: string, a: string)
      requires Valid() && n in nodes.vals && a in nodes.vals[n].vals
      modifies this`nodes
      ensures Valid()
      ensures State() == AttrDeleted(old(State()), n, a)
    {
      nodes := nodes.Put(n, nodes.vals[n].Remove(a));
    }

    method Apply(op: GraphOp)
      requires Valid()
      modifies this
      ensures Valid()
      ensures State() == ApplyOp(old(State()), op)
    {
      match op
      case AddNodeOp(key, attrs) => AddNode(key, attrs);
      case AddEdgeOp(u, v, attrs) => AddEdge(u, v, attrs);
    }

    /** Carries out each row's operations in turn and stops at the first row
      * that raised. */
    method Run(steps: seq<Step>) returns (failure: Option<PyError>)
      requires Valid()
      modifies this
      ensures Valid()
      ensures (State(), failure) == Ingest(old(State()), steps)
    {
      var i := 0;
      while i < |steps|
        invariant 0 <= i <= |steps|
        invariant Valid()
        invariant Ingest(old(State()), steps) == Ingest(State(), steps[i..])
      {
        var ops := steps[i].ops;
        ghost var start := State();
        var j := 0;
        while j < |ops|
          invariant 0 <= j <= |ops|
          invariant Valid()
          invariant ApplyOps(start, ops) == ApplyOps(State(), ops[j..])
        {
          assert ops[j..][1..] == ops[j + 1..];
          Apply(ops[j]);
          j := j + 1;
        }
        assert steps[i..][1..] == steps[i + 1..];
        if steps[i].failure.Some? {
          return steps[i].failure;
        }
        i := i + 1;
      }
      return None;
    }
  }
}
