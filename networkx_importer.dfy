// The generic importer: a property graph tagged with one data source, its
// statistics, and its export, which cleans the node attributes and writes
// GraphML.
module NetworkxImport {
  import opened Wrappers
  import opened Values
  import opened OrderedDicts
  import opened Graphs
  import opened GraphStatistics
  import opened WordCleaning
  import opened GraphmlWriter

  /** The counts `print_statistics` prints: one per node label, one per
    * (edge label, source label, target label) triple. */
  datatype Printed = Printed(nodes: set<Value>, nodeCounts: map<Value, nat>, edgeCounts: map<(Value, Value, Value), nat>)

  /** The counter key of an edge triple: `"{}_{}_{}".format(...)`. */
  function TripleKey(t: (Value, Value, Value)): string
  {
    Format(t.0) + "_" + Format(t.1) + "_" + Format(t.2)
  }

  /** The edge triples exist for every edge exactly when the edge counter
    * can label every edge it counts. */
  lemma EdgeValuesCount(g: Graph, source: string)
    requires WellFormed(g) && EdgeValues(g, EdgeOrder(g), "elabel").Success?
    ensures EdgeStatistics(g, source).Success?
  {
    var es := EdgeOrder(g);
    assert forall e :: e in es ==> e in g.edges;
    EdgeTriplesSucceed(g, es, source);
  }

  class NetworkxImporter {
    const graph: PropertyGraph
    /** The data source the statistics are restricted to. */
    const source: string
    const stats: StatisticsCache

    ghost predicate Valid()
      reads this, graph
    {
      graph.Valid()
    }

    constructor (source: string)
      ensures Valid() && fresh(graph) && fresh(stats) && this.source == source
      ensures graph.State() == EmptyGraph() && stats.noNodes.None? && stats.noEdges.None?
    {
      graph := new PropertyGraph();
      this.source := source;
      stats := new StatisticsCache();
    }

    /** `print_statistics()`: the node labels in some order, each with the
      * count the cache gives (recounted for the first label only), then the
      * edge triples likewise; the set of node labels is returned. Reading
      * the edge triples raises when an edge has no `elabel` or an endpoint
      * no `nlabel`. Every printed count is the count over the graph as it
      * is, cached or not. */
    method PrintStatistics() returns (r: Result<Printed, PyError>)
      requires Valid()
      modifies stats
      ensures var g := graph.State();
              r.Success? <==> EdgeValues(g, EdgeOrder(g), "elabel").Success?
      ensures var g := graph.State();
              r.Success? ==> r.value.nodes == NodeValues(g, "nlabel") &&
                             (forall v :: v in r.value.nodeCounts <==> v in r.value.nodes) &&
                             (forall v :: v in r.value.nodeCounts ==>
                                r.value.nodeCounts[v] == |CountedNodesWith(g, g.nodes.keys, source, false, v)|)
      ensures var g := graph.State();
              r.Success? ==> EdgeStatistics(g, source).Success? &&
                             (forall t :: t in r.value.edgeCounts <==> t in EdgeValues(g, EdgeOrder(g), "elabel").value) &&
                             (forall t :: t in r.value.edgeCounts ==>
                                r.value.edgeCounts[t] == EdgeStatistics(g, source).value.GetOr(TripleKey(t), 0))
    {
      var g := graph.State();
      var nodes := NodeValues(g, "nlabel");
      var nodeCounts := NodeCounts(g, nodes);
      var edges := EdgeValues(g, EdgeOrder(g), "elabel");
      if edges.Failure? {
        return Failure(edges.error);
      }
      EdgeValuesCount(g, source);
      var edgeCounts := EdgeCounts(g, edges.value);
      return Success(Printed(nodes, nodeCounts, edgeCounts));
    }

    /** The node-label loop of `print_statistics`: the first label recounts,
      * the others read the cache the first one filled. */
    method NodeCounts(g: Graph, nodes: set<Value>) returns (counts: map<Value, nat>)
      requires WellFormed(g)
      modifies stats
      ensures forall v :: v in counts <==> v in nodes
      ensures forall v :: v in counts ==> counts[v] == |CountedNodesWith(g, g.nodes.keys, source, false, v)|
    {
      counts := map[];
      var rest := nodes;
      var i := 0;
      while rest != {}
        invariant rest <= nodes
        invariant forall v :: v in counts <==> v in nodes && v !in rest
        invariant forall v :: v in counts ==> counts[v] == |CountedNodesWith(g, g.nodes.keys, source, false, v)|
        invariant i > 0 ==> stats.noNodes == Some(NodeStatistics(g, source, false))
        decreases rest
      {
        var node :| node in rest;
        var count := stats.NodesStatistics(g, source, false, node, i);
        NodeStatisticsMeaning(g, source, false, node);
        counts := counts[node := count.value];
        rest := rest - {node};
        i := i + 1;
      }
    }

    /** The edge-triple loop of `print_statistics`, likewise. */
    method EdgeCounts(g: Graph, triples: set<(Value, Value, Value)>) returns (counts: map<(Value, Value, Value), nat>)
      requires WellFormed(g) && EdgeStatistics(g, source).Success?
      modifies stats
      ensures forall t :: t in counts <==> t in triples
      ensures forall t :: t in counts ==> counts[t] == EdgeStatistics(g, source).value.GetOr(TripleKey(t), 0)
    {
      counts := map[];
      var rest := triples;
      var j := 0;
      while rest != {}
        invariant rest <= triples
        invariant forall t :: t in counts <==> t in triples && t !in rest
        invariant forall t :: t in counts ==> counts[t] == EdgeStatistics(g, source).value.GetOr(TripleKey(t), 0)
        invariant j > 0 ==> stats.noEdges == Some(EdgeStatistics(g, source).value)
        decreases rest
      {
        var t :| t in rest;
        var count := stats.EdgesStatistics(g, source, t.0, t.1, t.2, j);
        counts := counts[t := count.value];
        rest := rest - {t};
        j := j + 1;
      }
    }

    /** `export(path, format)`: a gpickle export writes the graph as it is;
      * a GraphML export first cleans the node attributes in place, then
      * writes the file. Any other format does nothing. The cleaning keeps
      * the word characters, as `[^\w]` does: the class `[^w]` the importer
      * spells out keeps only the letter `w` (`Clean(graph, LetterW)`). */
    method Export(path: string, format: string) returns (file: Option<(string, Result<string, PyError>)>)
      requires Valid()
      modifies graph
      ensures Valid()
      ensures format != "graphml" ==> graph.State() == old(graph.State()) && file.None?
      ensures format == "graphml" ==>
                graph.State() == CleanGraph(old(graph.State()), WordChars) &&
                file == Some((OutputPath(path), Graphml(CleanGraph(old(graph.State()), WordChars), "nlabel", "elabel", WikidataLabels)))
    {
      if format == "graphml" {
        Clean(graph, WordChars);
        var out, text := WriteGraphml(graph, path, "nlabel", "elabel", WikidataLabels);
        return Some((out, text));
      }
      return None;
    }
  }
}
