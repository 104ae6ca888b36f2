// The second GDELT builder: each record becomes an article `A_<id>` linked to
// every source, person, organization and theme it lists (`S_`, `P_`, `O_`,
// `T_`) and to the locations of its plain locations field (`L_<FeatureID>`);
// its statistics count nodes per `nlabel` and edges per `elabel`, and its
// filtered export lists each article with its neighbours grouped by kind.
module GdeltV2Graph {
  import opened Wrappers
  import opened Text
  import opened Values
  import opened OrderedDicts
  import opened Graphs
  import opened RowCalls
  import GdeltGraph

  const ArticlePrefix := "A_"

  // ---- The article ------------------------------------------------------------------

  const ArticleHead: seq<Field> :=
    [Fixed("nlabel", Str("ART")), Col("aid", "GKGRECORDID"), Col("url", "DOCUMENTIDENTIFIER")]

  /** The article's `add_node`: `pos=tone[1], neg=tone[2]` read after the
    * other keyword arguments. */
  function ArticleCall(row: Row, tone: seq<Value>): Result<GraphOp, PyError>
  {
    var key :- KeyOf(row, ArticlePrefix, [Plain("GKGRECORDID")]);
    var head :- Kwargs(row, ArticleHead);
    if |tone| < 3 then Failure(IndexError("list index out of range"))
    else Success(AddNodeOp(key, head + [("pos", tone[1]), ("neg", tone[2])]))
  }

  // ---- Sources, persons, organizations, themes --------------------------------------

  /** A `;`-separated column, the node label of its items and the edge label. */
  datatype Selection = Selection(column: string, nlabel: string, elabel: string)

  const Sources := Selection("SOURCECOMMONNAME", "SRC", "ART_SRC")
  const Persons := Selection("PERSONS", "PER", "ART_PER")
  const Organizations := Selection("ORGANIZATIONS", "ORG", "ART_ORG")
  const Themes := Selection("THEMES", "THM", "ART_THM")

  /** `"{}_{}".format(label[0], item)`. */
  function ItemKey(nlabel: string, item: string): string
    requires |nlabel| > 0
  {
    [nlabel[0]] + "_" + item
  }

  /** One node and one edge from the article per non-empty item, in order. */
  function ItemOps(sel: Selection, article: string, items: seq<string>): (ops: seq<GraphOp>)
    requires |sel.nlabel| > 0
  {
    if |items| == 0 then []
    else if items[0] == "" then ItemOps(sel, article, items[1..])
    else
      var k := ItemKey(sel.nlabel, items[0]);
      [AddNodeOp(k, [("nlabel", Str(sel.nlabel)), ("name", Str(items[0]))]),
       AddEdgeOp(article, k, [("elabel", Str(sel.elabel))])] + ItemOps(sel, article, items[1..])
  }

  /** One selected column: nothing when missing, otherwise each `;` item. */
  function SelectionStep(row: Row, sel: Selection, article: string): Step
    requires |sel.nlabel| > 0
  {
    match Cell(row, sel.column)
    case Failure(e) => Raise(e)
    case Success(v) =>
      if IsNaN(v) then Do([])
      else if !v.Str? then Raise(AttributeError("split"))
      else Do(ItemOps(sel, article, Split(v.s, ';')))
  }

  // ---- Locations -----------------------------------------------------------------------

  /** The location node and ART_LOC edge of one row of the seven-column
    * table Type, FullName, CountryCode, ADM1Code, Latitude, Longitude,
    * FeatureID. */
  function LocationOps(article: string, r: seq<Value>): seq<GraphOp>
    requires |r| == 7
  {
    var k := "L_" + Format(r[6]);
    [AddNodeOp(k, [("nlabel", Str("LOC")), ("lid", r[6]), ("type", r[0]), ("name", r[1]), ("cc", r[2]),
                   ("lat", r[4]), ("lon", r[5])]),
     AddEdgeOp(article, k, [("elabel", Str("ART_LOC"))])]
  }

  function TableOps(article: string, t: seq<seq<Value>>): (ops: seq<GraphOp>)
    requires forall i :: 0 <= i < |t| ==> |t[i]| == 7
    ensures |ops| == 2 * |t|
  {
    if |t| == 0 then [] else LocationOps(article, t[0]) + TableOps(article, t[1..])
  }

  /** The locations of a record: none for a missing cell and none when the
    * table does not have exactly seven columns. */
  function LocationsStep(row: Row, article: string): Step
  {
    match Cell(row, "LOCATIONS")
    case Failure(e) => Raise(e)
    case Success(v) =>
      if IsNaN(v) then Do([])
      else if !v.Str? then Raise(AttributeError("split"))
      else if GdeltGraph.Width(GdeltGraph.Entries(v.s)) != 7 then Do([])
      else Do(TableOps(article, GdeltGraph.LocationTable(v.s)))
  }

  // ---- One record ------------------------------------------------------------------------

  /** `create_graph`, one row: tone, article, the four selections in order,
    * then the locations. */
  function RecordStep(row: Row): Step
  {
    match Cell(row, "5TONE")
    case Failure(e) => Raise(e)
    case Success(t) =>
      match GdeltGraph.Tone(t)
      case Failure(e) => Raise(e)
      case Success(tone) =>
        match ArticleCall(row, tone)
        case Failure(e) => Raise(e)
        case Success(op) => RecordBody(row, op)
  }

  function RecordBody(row: Row, op: GraphOp): Step
    requires op.AddNodeOp?
  {
    Then(Do([op]),
      Then(SelectionStep(row, Sources, op.key),
        Then(SelectionStep(row, Persons, op.key),
          Then(SelectionStep(row, Organizations, op.key),
            Then(SelectionStep(row, Themes, op.key), LocationsStep(row, op.key))))))
  }

  // ---- Statistics ------------------------------------------------------------------------

  /** `graph.nodes(data='nlabel')`: each node's label, None when it has none. */
  function NodeLabels(g: Graph, keys: seq<string>): (r: seq<Value>)
    ensures |r| == |keys|
    ensures forall i :: 0 <= i < |keys| ==> r[i] == Attr(g, keys[i], "nlabel").UnwrapOr(Null)
  {
    seq(|keys|, i requires 0 <= i < |keys| => Attr(g, keys[i], "nlabel").UnwrapOr(Null))
  }

  /** `graph.edges(data='elabel')`. */
  function EdgeLabels(es: seq<Edge>): (r: seq<Value>)
    ensures |r| == |es|
    ensures forall i :: 0 <= i < |es| ==> r[i] == es[i].attrs.GetOr("elabel", Null)
  {
    seq(|es|, i requires 0 <= i < |es| => es[i].attrs.GetOr("elabel", Null))
  }

  /** What `print_statistics` reports: the count per node label with the
    * node total, and the count per edge label with the edge total. */
  datatype Report = Report(nodes: Dict<Value, nat>, nodeTotal: nat, edges: Dict<Value, nat>, edgeTotal: nat)

  /** `print_statistics`: unpacking `zip(*...)` of an empty graph's nodes or
    * edges raises. */
  function Statistics(g: Graph): (r: Result<Report, PyError>)
    requires WellFormed(g)
    ensures r.Success? <==> |g.nodes.keys| > 0 && |g.edges| > 0
    ensures r.Success? ==> r.value.nodeTotal == |g.nodes.keys| && r.value.edgeTotal == |g.edges|
  {
    if |g.nodes.keys| == 0 || |g.edges| == 0 then Failure(ValueError("not enough values to unpack"))
    else Success(Report(Counter(NodeLabels(g, g.nodes.keys)), |g.nodes.keys|,
                        Counter(EdgeLabels(EdgeOrder(g))), |g.edges|))
  }

  // ---- Filtered export -----------------------------------------------------------------------

  /** One line of `export_filtered_csv`: the article's columns, then its
    * neighbours by kind. */
  datatype ArticleLine = ArticleLine(aid: Value, url: Value, pos: Value, neg: Value,
                                     organizations: string, persons: string, sources: string,
                                     themes: string, locations: string)

  /** The neighbours whose key starts with `c`, in neighbour order. */
  function StartingWith(ns: seq<string>, c: char): (r: seq<string>)
    ensures forall x :: x in r <==> x in ns && |x| > 0 && x[0] == c
    ensures |r| <= |ns|
  {
    if |ns| == 0 then []
    else
      var rest := StartingWith(ns[1..], c);
      assert forall x :: x in ns <==> x == ns[0] || x in ns[1..];
      if |ns[0]| > 0 && ns[0][0] == c then [ns[0]] + rest else rest
  }

  /** `map(lambda y: y[2:], ...)`. */
  function Stripped(ns: seq<string>): (r: seq<string>)
    ensures |r| == |ns| && forall i :: 0 <= i < |ns| ==> r[i] == Drop(ns[i], 2)
  {
    seq(|ns|, i requires 0 <= i < |ns| => Drop(ns[i], 2))
  }

  /** `';'.join(y[2:] for the neighbours of n starting with c)`. */
  function Group(g: Graph, n: string, c: char): string
  {
    Join(Stripped(StartingWith(Successors(g, n), c)), ";")
  }

  /** `'#'.join(attrs.values())` of a location node: every value must be a string. */
  function JoinedValues(a: Attrs, keys: seq<string>): (r: Result<string, PyError>)
    requires forall k :: k in keys ==> k in a.vals
  {
    if |keys| == 0 then Success("")
    else if !a.vals[keys[0]].Str? then Failure(TypeError("sequence item: expected str instance"))
    else if |keys| == 1 then Success(a.vals[keys[0]].s)
    else
      var rest :- JoinedValues(a, keys[1..]);
      Success(a.vals[keys[0]].s + "#" + rest)
  }

  /** One location neighbour's text, with `LOC#` removed; the neighbour must
    * be one of the `L_` nodes. */
  function LocationText(g: Graph, y: string): (r: Result<string, PyError>)
    requires WellFormed(g)
  {
    if !StartsWith(y, "L_") || y !in g.nodes.vals then Failure(KeyError(y))
    else
      var joined :- JoinedValues(g.nodes.vals[y], g.nodes.vals[y].keys);
      Success(Replace(joined, "LOC#", ""))
  }

  function LocationTexts(g: Graph, ys: seq<string>): (r: Result<seq<string>, PyError>)
    requires WellFormed(g)
    ensures r.Success? ==> |r.value| == |ys|
  {
    if |ys| == 0 then Success([])
    else
      var first :- LocationText(g, ys[0]);
      var rest :- LocationTexts(g, ys[1..]);
      Success([first] + rest)
  }

  function ArtNodes(g: Graph, keys: seq<string>): (r: seq<string>)
    ensures forall n :: n in r <==> n in keys && Attr(g, n, "nlabel") == Some(Str("ART"))
  {
    if |keys| == 0 then []
    else
      var rest := ArtNodes(g, keys[1..]);
      assert forall x :: x in keys <==> x == keys[0] || x in keys[1..];
      if Attr(g, keys[0], "nlabel") == Some(Str("ART")) then [keys[0]] + rest else rest
  }

  function Line(g: Graph, n: string): (r: Result<ArticleLine, PyError>)
    requires WellFormed(g)
  {
    var locs :- LocationTexts(g, StartingWith(Successors(g, n), 'L'));
    Success(ArticleLine(Attr(g, n, "aid").UnwrapOr(Null), Attr(g, n, "url").UnwrapOr(Null),
                        Attr(g, n, "pos").UnwrapOr(Null), Attr(g, n, "neg").UnwrapOr(Null),
                        Group(g, n, 'O'), Group(g, n, 'P'), Group(g, n, 'S'), Group(g, n, 'T'),
                        Join(locs, ";")))
  }

  function Lines(g: Graph, ns: seq<string>): (r: Result<seq<ArticleLine>, PyError>)
    requires WellFormed(g)
    ensures r.Success? ==> |r.value| == |ns|
  {
    if |ns| == 0 then Success([])
    else
      var first :- Line(g, ns[0]);
      var rest :- Lines(g, ns[1..]);
      Success([first] + rest)
  }

  /** `export_filtered_csv`: one line per ART node, in node order. */
  function FilteredExport(g: Graph): Result<seq<ArticleLine>, PyError>
    requires WellFormed(g)
  {
    Lines(g, ArtNodes(g, g.nodes.keys))
  }

  // ---- The importer ------------------------------------------------------------------------

  class Importer {
    const graph: PropertyGraph

    ghost predicate Valid()
      reads this, graph
    {
      graph.Valid()
    }

    constructor ()
      ensures Valid() && fresh(graph) && graph.State() == EmptyGraph()
    {
      graph := new PropertyGraph();
    }

    /** `create_graph(df)`: every record in turn; an exception stops the run. */
    method CreateGraph(df: Frame) returns (failure: Option<PyError>)
      requires Valid()
      modifies graph
      ensures Valid()
      ensures (graph.State(), failure) == Ingest(old(graph.State()), EachRow(df, RecordStep))
    {
      failure := graph.Run(EachRow(df, RecordStep));
    }

    method PrintStatistics() returns (r: Result<Report, PyError>)
      requires Valid()
      ensures r == Statistics(graph.State())
    {
      r := Statistics(graph.State());
    }

    method ExportFilteredCsv() returns (r: Result<seq<ArticleLine>, PyError>)
      requires Valid()
      ensures r == FilteredExport(graph.State())
    {
      r := FilteredExport(graph.State());
    }
  }
}
