// The GDELT (GKG 2.1) property-graph builder: each record becomes an Article
// node `GD_A_<GKGRECORDID>` carrying its tone, linked to the first theme,
// person and organization it names (`GD_T_`, `GD_P_`, `GD_O_`) and to every
// location of its enhanced-locations field (`GD_L_<FeatureID>`).
module GdeltGraph {
  import opened Wrappers
  import opened Text
  import opened Values
  import opened OrderedDicts
  import opened Graphs
  import opened RowCalls
  import opened GraphStatistics

  const Source := "GDELT"
  const ArticlePrefix := "GD_A_"
  const LocationPrefix := "GD_L_"

  // ---- Tone --------------------------------------------------------------------

  function Strs(parts: seq<string>): (r: seq<Value>)
    ensures |r| == |parts| && forall i :: 0 <= i < |parts| ==> r[i] == Str(parts[i])
  {
    seq(|parts|, i requires 0 <= i < |parts| => Str(parts[i]))
  }

  /** `row['5TONE'].split(',')`, or seven zeros for a missing cell; a cell
    * that is neither has no `split`. */
  function Tone(cell: Value): Result<seq<Value>, PyError>
  {
    if IsNaN(cell) then Success(seq(7, _ => Int(0)))
    else if cell.Str? then Success(Strs(Split(cell.s, ',')))
    else Failure(AttributeError("split"))
  }

  const ToneNames: seq<string> :=
    ["tone", "positive_score", "negative_score", "polarity", "activity_reference_density",
     "self_group_reference_density", "word_count"]

  // ---- The article ---------------------------------------------------------------

  const ArticleHead: seq<Field> :=
    [Fixed("nlabel", Str("Article")), Col("gkg_record_id", "GKGRECORDID"), Col("date", "DATE"),
     Col("source_id", "SOURCECOLLECTIONIDENTIFIER"), Col("source_name", "SOURCECOMMONNAME"),
     Col("document_id", "DOCUMENTIDENTIFIER")]

  const ArticleTail: seq<Field> := [Col("counts", "COUNTS"), Fixed("source", Str(Source))]

  /** `tone=tone[0], …, word_count=tone[6]`. */
  function TonePairs(tone: seq<Value>): (r: seq<(string, Value)>)
    requires |tone| >= 7
    ensures |r| == 7 && forall i :: 0 <= i < 7 ==> r[i] == (ToneNames[i], tone[i])
  {
    seq(7, i requires 0 <= i < 7 => (ToneNames[i], tone[i]))
  }

  /** The article's `add_node`: the key, then the keyword arguments left to
    * right; a tone of fewer than seven parts raises when the first missing
    * part is read, after the columns before it. */
  function ArticleCall(row: Row, tone: seq<Value>): Result<GraphOp, PyError>
  {
    var key :- KeyOf(row, ArticlePrefix, [Plain("GKGRECORDID")]);
    var head :- Kwargs(row, ArticleHead);
    if |tone| < 7 then Failure(IndexError("list index out of range"))
    else
      var tail :- Kwargs(row, ArticleTail);
      Success(AddNodeOp(key, head + TonePairs(tone) + tail))
  }

  // ---- Themes, persons, organizations -----------------------------------------------

  /** A multi-valued column, the node label it yields and the edge label. */
  datatype Mention = Mention(column: string, nlabel: string, elabel: string)

  const Theme := Mention("ENHANCEDTHEMES", "Theme", "IS_ABOUT")
  const Person := Mention("ENHANCEDPERSONS", "Person", "MENTIONS")
  const Organization := Mention("ENHANCEDORGANIZATIONS", "Organization", "MENTIONS")

  /** `"GD_{}_{}".format(label[0], name)`. */
  function MentionKey(nlabel: string, name: string): string
    requires |nlabel| > 0
  {
    "GD_" + [nlabel[0]] + "_" + name
  }

  /** `for (key, pos) in temp[:1]`: the first `;` entry split on `,` must
    * unpack into exactly a name and a position. */
  function FirstEntry(s: string): (r: Result<(string, string), PyError>)
  {
    var parts := Split(Split(s, ';')[0], ',');
    if |parts| != 2 then Failure(ValueError("wrong number of values to unpack"))
    else Success((parts[0], parts[1]))
  }

  /** The node and edge of one mention column: nothing for a missing cell
    * or an empty name. */
  function MentionStep(row: Row, m: Mention, article: string): Step
    requires |m.nlabel| > 0
  {
    match Cell(row, m.column)
    case Failure(e) => Raise(e)
    case Success(v) =>
      if IsNaN(v) then Do([])
      else if !v.Str? then Raise(AttributeError("split"))
      else
        match FirstEntry(v.s)
        case Failure(e) => Raise(e)
        case Success((name, pos)) =>
          if name == "" then Do([])
          else
            var k := MentionKey(m.nlabel, name);
            Do([AddNodeOp(k, [("nlabel", Str(m.nlabel)), ("name", Str(name)), ("source", Str(Source))]),
                AddEdgeOp(article, k, [("elabel", Str(m.elabel)), ("source", Str(Source)), ("position", Str(pos))])])
  }

  // ---- Locations ---------------------------------------------------------------------

  /** The number of columns of the location table: its widest entry. */
  function Width(entries: seq<seq<string>>): (w: nat)
    ensures forall i :: 0 <= i < |entries| ==> |entries[i]| <= w
    ensures |entries| > 0 ==> exists i :: 0 <= i < |entries| && |entries[i]| == w
  {
    if |entries| == 0 then 0
    else
      var w := Width(entries[1..]);
      assert forall i :: 1 <= i < |entries| ==> entries[i] == entries[1..][i - 1];
      if |entries[0]| >= w then |entries[0]| else w
  }

  /** One entry as a table row: its pieces, then None up to the width. */
  function Padded(pieces: seq<string>, width: nat): (r: seq<Value>)
    requires |pieces| <= width
    ensures |r| == width
    ensures forall i :: 0 <= i < width ==> r[i] == if i < |pieces| then Str(pieces[i]) else Null
  {
    seq(width, i requires 0 <= i < width => if i < |pieces| then Str(pieces[i]) else Null)
  }

  /** `DataFrame.from_dict(dict(Series(s.split(";")).apply(lambda x: x.split("#"))), "index")`. */
  function LocationTable(s: string): (t: seq<seq<Value>>)
    ensures |t| == |Split(s, ';')|
    ensures forall i :: 0 <= i < |t| ==> |t[i]| == Width(Entries(s))
    ensures forall i :: 0 <= i < |t| ==> t[i] == Padded(Entries(s)[i], Width(Entries(s)))
  {
    var entries := Entries(s);
    var w := Width(entries);
    seq(|entries|, i requires 0 <= i < |entries| => Padded(entries[i], w))
  }

  function Entries(s: string): (r: seq<seq<string>>)
    ensures |r| == |Split(s, ';')| && forall i :: 0 <= i < |r| ==> r[i] == Split(Split(s, ';')[i], '#')
  {
    var es := Split(s, ';');
    seq(|es|, i requires 0 <= i < |es| => Split(es[i], '#'))
  }

  /** The location node and the MENTIONS edge of one table row, with the
    * columns Type, FullName, CountryCode, ADM1Code, ADM2Code, Latitude,
    * Longitude, FeatureID, Position. */
  function LocationOps(article: string, r: seq<Value>): seq<GraphOp>
    requires |r| == 9
  {
    var k := LocationPrefix + Format(r[7]);
    [AddNodeOp(k, [("nlabel", Str("Location")), ("feature_id", r[7]), ("type", r[0]), ("full_name", r[1]),
                   ("country_code", r[2]), ("adm1_code", r[3]), ("adm2_code", r[4]), ("latitude", r[5]),
                   ("longitude", r[6]), ("source", Str(Source))]),
     AddEdgeOp(article, k, [("elabel", Str("MENTIONS")), ("source", Str(Source)), ("position", r[8])])]
  }

  function TableOps(article: string, t: seq<seq<Value>>): (ops: seq<GraphOp>)
    requires forall i :: 0 <= i < |t| ==> |t[i]| == 9
    ensures |ops| == 2 * |t|
  {
    if |t| == 0 then [] else LocationOps(article, t[0]) + TableOps(article, t[1..])
  }

  /** The locations of a record: none for a missing cell, and none when the
    * table does not have exactly nine columns (`continue`). */
  function LocationsStep(row: Row, article: string): Step
  {
    match Cell(row, "ENHANCEDLOCATIONS")
    case Failure(e) => Raise(e)
    case Success(v) =>
      if IsNaN(v) then Do([])
      else if !v.Str? then Raise(AttributeError("split"))
      else if Width(Entries(v.s)) != 9 then Do([])
      else Do(TableOps(article, LocationTable(v.s)))
  }

  // ---- One record ------------------------------------------------------------------

  /** `_create_graph`, one row: the tone, the article, the three mention
    * columns in order, then the locations. */
  function RecordStep(row: Row): Step
  {
    match Cell(row, "5TONE")
    case Failure(e) => Raise(e)
    case Success(t) =>
      match Tone(t)
      case Failure(e) => Raise(e)
      case Success(tone) =>
        match ArticleCall(row, tone)
        case Failure(e) => Raise(e)
        case Success(op) => RecordBody(row, op)
  }

  /** After the article call: the mentions and the locations, each raising
    * part stopping the row. */
  function RecordBody(row: Row, op: GraphOp): Step
    requires op.AddNodeOp?
  {
    Then(Do([op]),
      Then(MentionStep(row, Theme, op.key),
        Then(MentionStep(row, Person, op.key),
          Then(MentionStep(row, Organization, op.key), LocationsStep(row, op.key)))))
  }

  // ---- Lookups ------------------------------------------------------------------------

  /** `get_nodes_values(attr)`: `set(nodes[n][attr] for every node)`; a node
    * without the attribute raises. */
  function NodesValues(g: Graph, keys: seq<string>, attr: string): (r: Result<set<Value>, PyError>)
    requires forall k :: k in keys ==> k in g.nodes.vals
    ensures r.Success? <==> forall k :: k in keys ==> Attr(g, k, attr).Some?
    ensures r.Success? ==> forall v :: v in r.value <==> exists k :: k in keys && Attr(g, k, attr) == Some(v)
  {
    if |keys| == 0 then Success({})
    else
      var rest := NodesValues(g, keys[1..], attr);
      var k := keys[0];
      assert forall x :: x in keys <==> x == k || x in keys[1..];
      if Attr(g, k, attr).None? then Failure(KeyError(attr))
      else if rest.Failure? then rest
      else Success({Attr(g, k, attr).value} + rest.value)
  }

  // ---- The importer --------------------------------------------------------------------

  class Importer {
    const graph: PropertyGraph
    /** The cached statistics counters. */
    const stats: StatisticsCache

    ghost predicate Valid()
      reads this, graph
    {
      graph.Valid()
    }

    constructor ()
      ensures Valid() && fresh(graph) && fresh(stats)
      ensures graph.State() == EmptyGraph() && stats.noNodes.None? && stats.noEdges.None?
    {
      graph := new PropertyGraph();
      stats := new StatisticsCache();
    }

    /** `_create_graph(df)`: every record in turn; an exception stops the run. */
    method CreateGraph(df: Frame) returns (failure: Option<PyError>)
      requires Valid()
      modifies graph
      ensures Valid()
      ensures (graph.State(), failure) == Ingest(old(graph.State()), EachRow(df, RecordStep))
    {
      failure := graph.Run(EachRow(df, RecordStep));
    }
  }
}
