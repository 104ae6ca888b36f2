// The gpickle-to-GraphML converter: each stored graph is cleaned in place
// (list and set values joined with a space, non-word characters turned into
// `_`, missing values deleted) and written as GraphML.
module GpickleToGraphml {
  import opened Wrappers
  import opened Values
  import opened Graphs
  import opened WordCleaning
  import opened GraphmlWriter

  /** `clean(graph)`: the same graph object comes back, cleaned. */
  method CleanGraphml(graph: PropertyGraph) returns (same: PropertyGraph)
    requires graph.Valid()
    modifies graph
    ensures same == graph && graph.Valid()
    ensures graph.State() == CleanGraph(old(graph.State()), WordChars)
  {
    Clean(graph, WordChars);
    same := graph;
  }

  /** After `clean`, every string attribute holds word characters only, and
    * no attribute is missing, a list or a set. */
  lemma CleanedWords(g: Graph, n: string, name: string)
    requires WellFormed(g) && n in g.nodes.vals && name in CleanGraph(g, WordChars).nodes.vals[n].vals
    ensures var v := CleanGraph(g, WordChars).nodes.vals[n].vals[name];
            !v.Missing? && !v.List? && !v.Set? && (v.Str? ==> forall i :: 0 <= i < |v.s| ==> IsWordChar(v.s[i]))
  {
    CleanGraphIsWritable(g, WordChars, n, name);
  }

  /** One file of the conversion loop: `graph = clean(graph)`, then
    * `write_xml(graph, file)`. */
  method Convert(graph: PropertyGraph, file: string) returns (path: string, r: Result<string, PyError>)
    requires graph.Valid()
    modifies graph
    ensures graph.Valid() && graph.State() == CleanGraph(old(graph.State()), WordChars)
    ensures path == OutputPath(file)
    ensures r == Graphml(CleanGraph(old(graph.State()), WordChars), "nlabel", "elabel", WikidataLabels)
  {
    var cleaned := CleanGraphml(graph);
    path, r := WriteGraphml(cleaned, file, "nlabel", "elabel", WikidataLabels);
  }
}
