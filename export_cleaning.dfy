// The cleaning every builder's `export(path, 'graphml')` applies to node
// attributes before handing the graph to the GraphML writer, which accepts
// neither list values nor the control bytes 0x00-0x10.
module GraphmlCleaning {
  import opened Text
  import opened Values
  import opened OrderedDicts
  import opened Graphs

  const ListSeparator := "<<;>>"

  /** A character whose UTF-8 encoding is one of the bytes 0x00-0x10 (every
    * other character encodes to bytes outside that range). */
  predicate IsLowControl(c: char) { c as int <= 0x10 }

  /** `re.sub(b'[\x00-\x10]', b'', s.encode('utf-8')).decode('utf-8')`. */
  function StripControl(s: string): (r: string)
    ensures forall i :: 0 <= i < |r| ==> !IsLowControl(r[i])
    ensures forall c :: c in r <==> c in s && !IsLowControl(c)
    ensures |r| <= |s|
  {
    if |s| == 0 then ""
    else
      var rest := StripControl(s[1..]);
      assert forall c :: c in s <==> c == s[0] || c in s[1..];
      if IsLowControl(s[0]) then rest else [s[0]] + rest
  }

  lemma {:induction false} StripControlKeepsClean(s: string)
    requires forall i :: 0 <= i < |s| ==> !IsLowControl(s[i])
    ensures StripControl(s) == s
  {
    if |s| > 0 {
      StripControlKeepsClean(s[1..]);
    }
  }

  /** The value one attribute ends up with: a list or set is first joined
    * with `<<;>>`, and then any string, joined or not, loses its control
    * characters; other values are kept. */
  function SafeValue(v: Value): (r: Value)
    ensures !r.List? && !r.Set?
    ensures r.Str? ==> forall i :: 0 <= i < |r.s| ==> !IsLowControl(r.s[i])
    ensures !v.List? && !v.Set? && !v.Str? ==> r == v
  {
    var joined := if v.List? || v.Set? then Str(Join(v.items, ListSeparator)) else v;
    if joined.Str? then Str(StripControl(joined.s)) else joined
  }

  /** Cleaning a value that is already clean changes nothing. */
  lemma SafeValueIdempotent(v: Value)
    ensures SafeValue(SafeValue(v)) == SafeValue(v)
  {
    var r := SafeValue(v);
    if r.Str? {
      StripControlKeepsClean(r.s);
    }
  }

  /** Every value of an attribute dictionary rewritten by `f`, names and
    * order kept. */
  function MapAttrs(a: Attrs, f: Value -> Value): (r: Attrs)
    ensures r.keys == a.keys
    ensures forall k :: k in r.vals <==> k in a.vals
    ensures forall k :: k in a.vals ==> r.vals[k] == f(a.vals[k])
  {
    Dict(a.keys, map k | k in a.vals :: f(a.vals[k]))
  }

  /** Every node's attribute dictionary rewritten by `h`; the edges are not
    * touched. */
  function MapNodes(g: Graph, h: Attrs -> Attrs): (r: Graph)
    ensures r.edges == g.edges && r.nodes.keys == g.nodes.keys
    ensures forall n :: n in r.nodes.vals <==> n in g.nodes.vals
    ensures forall n :: n in g.nodes.vals ==> r.nodes.vals[n] == h(g.nodes.vals[n])
  {
    Graph(Dict(g.nodes.keys, map n | n in g.nodes.vals :: h(g.nodes.vals[n])), g.edges)
  }

  function SafeAttrs(a: Attrs): (r: Attrs)
    ensures r.keys == a.keys
    ensures forall k :: k in r.vals <==> k in a.vals
    ensures forall k :: k in a.vals ==> r.vals[k] == SafeValue(a.vals[k])
  {
    MapAttrs(a, SafeValue)
  }

  /** The graph after cleaning: the same nodes in the same order with the same
    * attribute names, every value cleaned; the edges are not touched. */
  function SafeGraph(g: Graph): (h: Graph)
    ensures h.edges == g.edges && h.nodes.keys == g.nodes.keys
    ensures forall n :: n in h.nodes.vals <==> n in g.nodes.vals
    ensures forall n :: n in g.nodes.vals ==> h.nodes.vals[n] == SafeAttrs(g.nodes.vals[n])
  {
    MapNodes(g, SafeAttrs)
  }

  /** After cleaning no node attribute is a list or a set, and no string
    * attribute holds a control character. */
  lemma SafeGraphIsWritable(g: Graph, n: string, a: string)
    requires n in g.nodes.vals && a in g.nodes.vals[n].vals
    ensures var v := SafeGraph(g).nodes.vals[n].vals[a];
            !v.List? && !v.Set? && (v.Str? ==> forall i :: 0 <= i < |v.s| ==> !IsLowControl(v.s[i]))
  {
  }

  /** Exporting twice cleans no more than exporting once. */
  lemma SafeGraphIdempotent(g: Graph)
    ensures SafeGraph(SafeGraph(g)) == SafeGraph(g)
  {
    var h := SafeGraph(g);
    forall n | n in g.nodes.vals
      ensures SafeAttrs(h.nodes.vals[n]) == h.nodes.vals[n]
    {
      forall k | k in g.nodes.vals[n].vals
        ensures SafeValue(SafeValue(g.nodes.vals[n].vals[k])) == SafeValue(g.nodes.vals[n].vals[k])
      {
        SafeValueIdempotent(g.nodes.vals[n].vals[k]);
      }
    }
  }

  /** The attributes of one node with the first `m` of them rewritten. */
  function PartlyMapped(a: Attrs, m: nat, f: Value -> Value): Attrs
    requires m <= |a.keys|
  {
    Dict(a.keys, map k | k in a.vals :: if k in a.keys[..m] then f(a.vals[k]) else a.vals[k])
  }

  lemma PartlyMappedStep(a: Attrs, m: nat, f: Value -> Value)
    requires a.Valid() && m < |a.keys|
    ensures a.keys[m] in a.vals
    ensures PartlyMapped(a, m, f).Put(a.keys[m], f(a.vals[a.keys[m]])) == PartlyMapped(a, m + 1, f)
  {
    var k := a.keys[m];
    assert a.keys[..m + 1] == a.keys[..m] + [k];
    assert k !in a.keys[..m];
    var before := PartlyMapped(a, m, f);
    var after := PartlyMapped(a, m + 1, f);
    assert k in before.vals;
    forall x | x in after.vals
      ensures x in before.vals[k := f(a.vals[k])] && before.vals[k := f(a.vals[k])][x] == after.vals[x]
    {
      if x != k {
        assert x in a.keys[..m + 1] <==> x in a.keys[..m];
      }
    }
    assert before.vals[k := f(a.vals[k])] == after.vals;
  }

  lemma PartlyMappedNone(a: Attrs, f: Value -> Value)
    requires a.Valid()
    ensures PartlyMapped(a, 0, f) == a
  {
    assert a.keys[..0] == [];
  }

  lemma PartlyMappedAll(a: Attrs, f: Value -> Value)
    requires a.Valid()
    ensures PartlyMapped(a, |a.keys|, f) == MapAttrs(a, f)
  {
    assert a.keys[..|a.keys|] == a.keys;
  }

  /** The graph with the first `m` nodes, in node order, rewritten by `h`. */
  function PartlyMappedGraph(g: Graph, m: nat, h: Attrs -> Attrs): Graph
    requires m <= |g.nodes.keys|
  {
    Graph(Dict(g.nodes.keys, map n | n in g.nodes.vals :: if n in g.nodes.keys[..m] then h(g.nodes.vals[n]) else g.nodes.vals[n]), g.edges)
  }

  lemma PartlyMappedGraphNone(g: Graph, h: Attrs -> Attrs)
    requires WellFormed(g)
    ensures PartlyMappedGraph(g, 0, h) == g
  {
    assert g.nodes.keys[..0] == [];
  }

  lemma PartlyMappedGraphStep(g: Graph, m: nat, h: Attrs -> Attrs)
    requires WellFormed(g) && m < |g.nodes.keys|
    ensures g.nodes.keys[m] in g.nodes.vals
    ensures var n := g.nodes.keys[m];
            var p := PartlyMappedGraph(g, m, h);
            PartlyMappedGraph(g, m + 1, h) == Graph(Dict(p.nodes.keys, p.nodes.vals[n := h(p.nodes.vals[n])]), p.edges)
  {
    var n := g.nodes.keys[m];
    assert g.nodes.keys[..m + 1] == g.nodes.keys[..m] + [n];
    assert n !in g.nodes.keys[..m];
  }

  lemma PartlyMappedGraphAll(g: Graph, h: Attrs -> Attrs)
    requires WellFormed(g)
    ensures PartlyMappedGraph(g, |g.nodes.keys|, h) == MapNodes(g, h)
  {
    assert g.nodes.keys[..|g.nodes.keys|] == g.nodes.keys;
  }

  /** The inner loop: every attribute of node `n`, in order, is replaced by
    * its rewritten value. */
  method MapNode(graph: PropertyGraph, n: string, f: Value -> Value)
    requires graph.Valid() && n in graph.nodes.vals
    modifies graph
    ensures graph.Valid()
    ensures graph.edges == old(graph.edges) && graph.nodes.keys == old(graph.nodes.keys)
    ensures graph.nodes.vals == old(graph.nodes.vals)[n := MapAttrs(old(graph.nodes.vals[n]), f)]
  {
    ghost var a0 := graph.nodes.vals[n];
    ghost var before := graph.nodes.vals;
    var names := graph.nodes.vals[n].keys;
    PartlyMappedNone(a0, f);
    assert before[n := a0] == before;
    var j := 0;
    while j < |names|
      invariant 0 <= j <= |names|
      invariant graph.Valid()
      invariant graph.edges == old(graph.edges) && graph.nodes.keys == old(graph.nodes.keys)
      invariant graph.nodes.vals == before[n := PartlyMapped(a0, j, f)]
    {
      var k := names[j];
      PartlyMappedStep(a0, j, f);
      var v := graph.nodes.vals[n].vals[k];
      graph.SetAttr(n, k, f(v));
      j := j + 1;
    }
    PartlyMappedAll(a0, f);
  }

  /** The cleaning loop of `export(path, 'graphml')`: for each node, for each
    * attribute, the value is replaced in place. */
  method CleanForGraphml(graph: PropertyGraph)
    requires graph.Valid()
    modifies graph
    ensures graph.Valid()
    ensures graph.State() == SafeGraph(old(graph.State()))
  {
    ghost var g0 := graph.State();
    var keys := graph.nodes.keys;
    PartlyMappedGraphNone(g0, SafeAttrs);
    var i := 0;
    while i < |keys|
      invariant 0 <= i <= |keys|
      invariant graph.Valid()
      invariant graph.State() == PartlyMappedGraph(g0, i, SafeAttrs)
    {
      var n := keys[i];
      PartlyMappedGraphStep(g0, i, SafeAttrs);
      MapNode(graph, n, SafeValue);
      i := i + 1;
    }
    PartlyMappedGraphAll(g0, SafeAttrs);
  }
}
