// The statistics every graph builder prints: how many nodes carry each
// `nlabel` and how many edges carry each (elabel, source nlabel, target
// nlabel) combination, counting only what came from one data source.
module GraphStatistics {
  import opened Wrappers
  import opened Values
  import opened OrderedDicts
  import opened Graphs

  predicate FromSource(a: Attrs, source: string)
  {
    "source" in a.vals && a.vals["source"] == Str(source)
  }

  /** The nodes the node counter looks at: with an `nlabel`, from `source`,
    * and, for the unlabeled counter, without a `label`. */
  predicate CountedNode(a: Attrs, source: string, unlabeledOnly: bool)
  {
    "nlabel" in a.vals && FromSource(a, source) && (unlabeledOnly ==> "label" !in a.vals)
  }

  function ScopedLabels(g: Graph, keys: seq<string>, source: string, unlabeledOnly: bool): seq<Value>
    requires forall k :: k in keys ==> k in g.nodes.vals
  {
    if |keys| == 0 then []
    else
      var init := ScopedLabels(g, keys[..|keys| - 1], source, unlabeledOnly);
      var a := g.nodes.vals[keys[|keys| - 1]];
      if CountedNode(a, source, unlabeledOnly) then init + [a.vals["nlabel"]] else init
  }

  /** `Counter(nlabel of the counted nodes)`. */
  function NodeStatistics(g: Graph, source: string, unlabeledOnly: bool): Dict<Value, nat>
    requires WellFormed(g)
  {
    Counter(ScopedLabels(g, g.nodes.keys, source, unlabeledOnly))
  }

  ghost function CountedNodesWith(g: Graph, keys: seq<string>, source: string, unlabeledOnly: bool, nlabel: Value): set<string>
    requires forall k :: k in keys ==> k in g.nodes.vals
  {
    set n | n in keys && CountedNode(g.nodes.vals[n], source, unlabeledOnly) && g.nodes.vals[n].vals["nlabel"] == nlabel
  }

  lemma {:induction false} ScopedLabelsCount(g: Graph, keys: seq<string>, source: string, unlabeledOnly: bool, nlabel: Value)
    requires forall k :: k in keys ==> k in g.nodes.vals
    requires forall i, j :: 0 <= i < j < |keys| ==> keys[i] != keys[j]
    ensures Occurrences(ScopedLabels(g, keys, source, unlabeledOnly), nlabel)
         == |CountedNodesWith(g, keys, source, unlabeledOnly, nlabel)|
  {
    if |keys| > 0 {
      var init := keys[..|keys| - 1];
      var k := keys[|keys| - 1];
      ScopedLabelsCount(g, init, source, unlabeledOnly, nlabel);
      var before := CountedNodesWith(g, init, source, unlabeledOnly, nlabel);
      var after := CountedNodesWith(g, keys, source, unlabeledOnly, nlabel);
      assert k !in init;
      assert forall n :: n in keys <==> n in init || n == k;
      var a := g.nodes.vals[k];
      if CountedNode(a, source, unlabeledOnly) && a.vals["nlabel"] == nlabel {
        assert after == before + {k};
      } else {
        assert after == before;
      }
    }
  }

  /** The node counter gives, for each label, the number of nodes from the
    * source that carry it (zero for a label it never saw). */
  lemma NodeStatisticsMeaning(g: Graph, source: string, unlabeledOnly: bool, nlabel: Value)
    requires WellFormed(g)
    ensures NodeStatistics(g, source, unlabeledOnly).GetOr(nlabel, 0)
         == |CountedNodesWith(g, g.nodes.keys, source, unlabeledOnly, nlabel)|
  {
    var labels := ScopedLabels(g, g.nodes.keys, source, unlabeledOnly);
    ScopedLabelsCount(g, g.nodes.keys, source, unlabeledOnly, nlabel);
    if nlabel in labels {
      CounterCounts(labels, nlabel);
    } else {
      OccurrencesAbsent(labels, nlabel);
    }
  }

  /** The edges the edge counter looks at: with an `elabel`, from `source`. */
  predicate CountedEdge(e: Edge, source: string)
  {
    "elabel" in e.attrs.vals && FromSource(e.attrs, source)
  }

  /** `"{}_{}_{}".format(elabel, nlabel of source node, nlabel of target node)`
    * for each counted edge; a node without `nlabel` raises KeyError. */
  function EdgeTriples(g: Graph, es: seq<Edge>, source: string): (r: Result<seq<string>, PyError>)
    requires forall e :: e in es ==> e.src in g.nodes.vals && e.dst in g.nodes.vals
    ensures r.Success? ==> |r.value| == CountWhere(es, (e: Edge) => CountedEdge(e, source))
  {
    if |es| == 0 then Success([])
    else
      var e := es[0];
      var rest := EdgeTriples(g, es[1..], source);
      if !CountedEdge(e, source) then rest
      else if "nlabel" !in g.nodes.vals[e.src].vals || "nlabel" !in g.nodes.vals[e.dst].vals then
        Failure(KeyError("nlabel"))
      else if rest.Failure? then rest
      else
        Success([Format(e.attrs.vals["elabel"]) + "_" + Format(g.nodes.vals[e.src].vals["nlabel"]) + "_"
                 + Format(g.nodes.vals[e.dst].vals["nlabel"])] + rest.value)
  }

  function EdgeStatistics(g: Graph, source: string): Result<Dict<string, nat>, PyError>
    requires WellFormed(g)
  {
    var triples :- EdgeTriples(g, EdgeOrder(g), source);
    Success(Counter(triples))
  }

  /** The edge counts add up to the number of edges from the source. */
  lemma EdgeStatisticsTotal(g: Graph, source: string)
    requires WellFormed(g)
    requires EdgeStatistics(g, source).Success?
    ensures var c := EdgeStatistics(g, source).value;
            SumAt(c.keys, c.vals) == CountWhere(g.edges, (e: Edge) => CountedEdge(e, source))
  {
    var triples := EdgeTriples(g, EdgeOrder(g), source).value;
    CounterTotal(triples);
    EdgeOrderCount(g, (e: Edge) => CountedEdge(e, source));
  }

  /** When every edge's endpoints carry `nlabel`, the edge counter never raises. */
  lemma {:induction false} EdgeTriplesSucceed(g: Graph, es: seq<Edge>, source: string)
    requires forall e :: e in es ==> e.src in g.nodes.vals && e.dst in g.nodes.vals
    requires forall e :: e in es ==> Attr(g, e.src, "nlabel").Some? && Attr(g, e.dst, "nlabel").Some?
    ensures EdgeTriples(g, es, source).Success?
  {
    if |es| > 0 {
      assert forall e :: e in es[1..] ==> e in es;
      EdgeTriplesSucceed(g, es[1..], source);
    }
  }

  /** `get_nodes_ids(attribute, value)`: the keys of the nodes from `source`
    * whose attribute has the value, in node order. */
  function NodesIds(g: Graph, keys: seq<string>, attribute: string, value: Value, source: string): (r: seq<string>)
    ensures forall k :: k in r <==> k in keys && Attr(g, k, attribute) == Some(value) && Attr(g, k, "source") == Some(Str(source))
    ensures |r| <= |keys|
  {
    if |keys| == 0 then []
    else
      var rest := NodesIds(g, keys[1..], attribute, value, source);
      var k := keys[0];
      assert forall x :: x in keys <==> x == k || x in keys[1..];
      if Attr(g, k, attribute) == Some(value) && Attr(g, k, "source") == Some(Str(source)) then [k] + rest else rest
  }

  /** `get_edges_values(attr)`: the (attribute, source label, target label)
    * triples of all edges; an edge without the attribute or an endpoint
    * without `nlabel` raises KeyError. */
  function EdgeValues(g: Graph, es: seq<Edge>, attr: string): (r: Result<set<(Value, Value, Value)>, PyError>)
    ensures r.Success? <==> forall e :: e in es ==> attr in e.attrs.vals && Attr(g, e.src, "nlabel").Some? && Attr(g, e.dst, "nlabel").Some?
    ensures r.Success? ==> forall t :: t in r.value <==>
              exists e :: e in es && t == (e.attrs.vals[attr], Attr(g, e.src, "nlabel").value, Attr(g, e.dst, "nlabel").value)
  {
    if |es| == 0 then Success({})
    else
      var e := es[0];
      assert forall x :: x in es <==> x == e || x in es[1..];
      if attr !in e.attrs.vals then Failure(KeyError(attr))
      else if Attr(g, e.src, "nlabel").None? || Attr(g, e.dst, "nlabel").None? then Failure(KeyError("nlabel"))
      else
        var rest :- EdgeValues(g, es[1..], attr);
        Success({(e.attrs.vals[attr], Attr(g, e.src, "nlabel").value, Attr(g, e.dst, "nlabel").value)} + rest)
  }

  /** `set(attrs[attr] for every node that has attr)`. */
  function NodeValues(g: Graph, attr: string): (r: set<Value>)
    ensures forall v :: v in r <==> exists n :: n in g.nodes.vals && Attr(g, n, attr) == Some(v)
  {
    var r := set n | n in g.nodes.vals && attr in g.nodes.vals[n].vals :: g.nodes.vals[n].vals[attr];
    assert forall n :: n in g.nodes.vals && attr in g.nodes.vals[n].vals ==> g.nodes.vals[n].vals[attr] in r;
    r
  }

  /** The counters a builder caches between statistics calls (`self.no_nodes`,
    * `self.no_edges`): absent until first computed. The printing loop passes
    * its enumeration index as `choice`, so only its first call recounts. */
  class StatisticsCache {
    var noNodes: Option<Dict<Value, nat>>
    var noEdges: Option<Dict<string, nat>>

    constructor ()
      ensures noNodes.None? && noEdges.None?
    {
      noNodes := None;
      noEdges := None;
    }

    /** `get_nodes_statistics(val, choice)` (with `unlabeledOnly`, the
      * unlabeled-node variant): recounts only when `choice` is 0, then looks
      * the label up; a lookup before any count raises. */
    method NodesStatistics(g: Graph, source: string, unlabeledOnly: bool, val: Value, choice: int)
      returns (count: Result<nat, PyError>)
      requires WellFormed(g)
      modifies this
      ensures noEdges == old(noEdges)
      ensures choice == 0 ==> noNodes == Some(NodeStatistics(g, source, unlabeledOnly))
      ensures choice != 0 ==> noNodes == old(noNodes)
      ensures noNodes.None? ==> count.Failure?
      ensures noNodes.Some? ==> count == Success(noNodes.value.GetOr(val, 0))
      ensures choice == 0 ==> count == Success(|CountedNodesWith(g, g.nodes.keys, source, unlabeledOnly, val)|)
    {
      if choice == 0 {
        noNodes := Some(NodeStatistics(g, source, unlabeledOnly));
        NodeStatisticsMeaning(g, source, unlabeledOnly, val);
      }
      if noNodes.None? {
        return Failure(AttributeError("no_nodes"));
      }
      return Success(noNodes.value.GetOr(val, 0));
    }

    /** `get_edges_statistics(val, _from, _to, choice)`: the count of the
      * key `"<val>_<_from>_<_to>"`. */
    method EdgesStatistics(g: Graph, source: string, val: Value, from: Value, to: Value, choice: int)
      returns (count: Result<nat, PyError>)
      requires WellFormed(g)
      modifies this
      ensures noNodes == old(noNodes)
      ensures choice == 0 && EdgeStatistics(g, source).Failure? ==>
                count == Failure(EdgeStatistics(g, source).error) && noEdges == old(noEdges)
      ensures choice == 0 && EdgeStatistics(g, source).Success? ==> noEdges == Some(EdgeStatistics(g, source).value)
      ensures choice != 0 ==> noEdges == old(noEdges)
      ensures count.Success? ==>
                noEdges.Some? && count.value == noEdges.value.GetOr(Format(val) + "_" + Format(from) + "_" + Format(to), 0)
      ensures choice != 0 && noEdges.Some? ==> count.Success?
      ensures choice == 0 && EdgeStatistics(g, source).Success? ==> count.Success?
    {
      if choice == 0 {
        var stats := EdgeStatistics(g, source);
        if stats.Failure? {
          return Failure(stats.error);
        }
        noEdges := Some(stats.value);
      }
      if noEdges.None? {
        return Failure(AttributeError("no_edges"));
      }
      return Success(noEdges.value.GetOr(Format(val) + "_" + Format(from) + "_" + Format(to), 0));
    }
  }
}
