// The GraphML writer shared by the generic importer (`__write_graphml`), the
// gpickle-to-GraphML converter (`write_xml`) and the GDELT v2 helpers
// (`write_graphml`): key declarations, then every node under a new id
// `<first>_<second>_<position>`, then every edge between the new ids.
module GraphmlWriter {
  import opened Wrappers
  import opened Text
  import opened Values
  import opened OrderedDicts
  import opened Graphs

  /** The one node attribute each copy of the writer treats specially: the
    * importer and the converter write `labels` under the data key
    * `wdlabels`; the GDELT v2 helper wraps `document_id` in double quotes. */
  datatype Dialect = WikidataLabels | QuotedDocumentId

  function SpecialKey(d: Dialect): string
  {
    match d
    case WikidataLabels => "labels"
    case QuotedDocumentId => "document_id"
  }

  const Preamble: string :=
    "<?xml version=\"1.0\" encoding=\"UTF-8\"?>\n" +
    "<graphml xmlns=\"http://graphml.graphdrawing.org/xmlns\" " +
    "xmlns:xsi=\"http://www.w3.org/2001/XMLSchema-instance\" " +
    "xsi:schemaLocation=\"http://graphml.graphdrawing.org/xmlns" +
    " http://graphml.graphdrawing.org/xmlns/1.0/graphml.xsd\">\n"

  const GraphOpen: string := "<graph id=\"G\" edgedefault=\"directed\">\n"

  const Footer: string := "</graph>\n</graphml>\n"

  /** `'./graphml/{}.graphml'.format(file.split('.')[0])`: the name up to its
    * first dot, under `./graphml/`. */
  function OutputPath(file: string): (p: string)
    ensures '.' !in file ==> p == "./graphml/" + file + ".graphml"
    ensures exists stem :: '.' !in stem && p == "./graphml/" + stem + ".graphml"
  {
    var stem := Split(file, '.')[0];
    assert '.' !in file ==> stem == file by {
      if '.' !in file {
        SplitWithoutSeparator(file, '.');
      }
    }
    "./graphml/" + stem + ".graphml"
  }

  // ---- Key declarations -----------------------------------------------------

  function Flatten(xss: seq<seq<string>>): (r: seq<string>)
    ensures forall i, x :: 0 <= i < |xss| && x in xss[i] ==> x in r
    ensures forall x :: x in r ==> exists i :: 0 <= i < |xss| && x in xss[i]
  {
    if |xss| == 0 then []
    else
      var init := Flatten(xss[..|xss| - 1]);
      assert forall i :: 0 <= i < |xss| - 1 ==> xss[..|xss| - 1][i] == xss[i];
      init + xss[|xss| - 1]
  }

  /** `set.union(*[set(names) for each item])`: the names that occur in any
    * item, each once; with no item at all there is nothing to call `union`
    * on, and Python raises TypeError. */
  function KeyUnion(xss: seq<seq<string>>): (r: Result<seq<string>, PyError>)
    ensures r.Failure? <==> |xss| == 0
    ensures r.Success? ==> forall i, x :: 0 <= i < |xss| && x in xss[i] ==> x in r.value
    ensures r.Success? ==> forall x :: x in r.value ==> exists i :: 0 <= i < |xss| && x in xss[i]
    ensures r.Success? ==> forall i, j :: 0 <= i < j < |r.value| ==> r.value[i] != r.value[j]
  {
    if |xss| == 0 then Failure(TypeError("descriptor 'union' of 'set' object needs an argument"))
    else Success(Distinct(Flatten(xss)))
  }

  /** The attribute names of every node, in node order. */
  function NodeNames(g: Graph): (r: seq<seq<string>>)
    requires WellFormed(g)
    ensures |r| == |g.nodes.keys|
    ensures forall i :: 0 <= i < |r| ==> r[i] == g.nodes.vals[g.nodes.keys[i]].keys
  {
    seq(|g.nodes.keys|, i requires 0 <= i < |g.nodes.keys| => g.nodes.vals[g.nodes.keys[i]].keys)
  }

  /** The attribute names of every edge, in the order given. */
  function EdgeNames(es: seq<Edge>): (r: seq<seq<string>>)
    ensures |r| == |es|
    ensures forall i :: 0 <= i < |r| ==> r[i] == es[i].attrs.keys
  {
    seq(|es|, i requires 0 <= i < |es| => es[i].attrs.keys)
  }

  function KeyLine(key: string, kind: string): string
  {
    "<key id=\"" + key + "\" for=\"" + kind + "\" attr.name=\"" + key + "\"/>\n"
  }

  function KeyLines(keys: seq<string>, kind: string): string
  {
    if |keys| == 0 then "" else KeyLines(keys[..|keys| - 1], kind) + KeyLine(keys[|keys| - 1], kind)
  }

  /** Everything before the first node: the declarations of the node keys,
    * of `label` for nodes, of the edge keys and of `label` for edges. */
  function Header(nodeKeys: seq<string>, edgeKeys: seq<string>): string
  {
    Preamble + KeyLines(nodeKeys, "node") + KeyLine("label", "node") +
    KeyLines(edgeKeys, "edge") + KeyLine("label", "edge") + GraphOpen
  }

  // ---- Nodes -----------------------------------------------------------------

  /** The new id of the node with key `key` at position `no`: the first two
    * `_`-separated pieces of the key and the position; a key without `_`
    * has no second piece, and Python raises IndexError. */
  function NodeId(key: string, no: nat): (r: Result<string, PyError>)
    ensures r.Failure? <==> |Split(key, '_')| < 2
  {
    var parts := Split(key, '_');
    if |parts| < 2 then Failure(IndexError("list index out of range"))
    else Success(parts[0] + "_" + parts[1] + "_" + NatToString(no))
  }

  /** A new id splits into the first two pieces of the key and the position. */
  lemma NodeIdSplits(key: string, no: nat)
    requires NodeId(key, no).Success?
    ensures Split(NodeId(key, no).value, '_') == Split(key, '_')[..2] + [NatToString(no)]
  {
    var parts := Split(key, '_');
    NodeIdPieces(parts[0], parts[1], NatToString(no));
  }

  lemma NodeIdPieces(a: string, b: string, c: string)
    requires '_' !in a && '_' !in b
    requires forall i :: 0 <= i < |c| ==> '0' <= c[i] <= '9'
    ensures Split(a + "_" + b + "_" + c, '_') == [a, b, c]
  {
    assert '_' !in c;
    SplitWithoutSeparator(c, '_');
    SplitAfterPiece(b, '_', c);
    AppendAssoc(a + "_", b, "_");
    AppendAssoc(a + "_", b + "_", c);
    SplitAfterPiece(a, '_', b + ['_'] + c);
  }

  /** Nodes at different positions get different ids, whatever their keys. */
  lemma NodeIdsDistinct(k1: string, i: nat, k2: string, j: nat)
    requires NodeId(k1, i).Success? && NodeId(k2, j).Success? && i != j
    ensures NodeId(k1, i).value != NodeId(k2, j).value
  {
    NodeIdSplits(k1, i);
    NodeIdSplits(k2, j);
    var p := Split(NodeId(k1, i).value, '_');
    var q := Split(NodeId(k2, j).value, '_');
    if NodeId(k1, i).value == NodeId(k2, j).value {
      assert p[2] == NatToString(i) && q[2] == NatToString(j);
      NatToStringInjective(i, j);
    }
  }

  /** The data element one node attribute is written as: the special
    * attribute of the dialect gets its own key or quotes, the others are
    * written as they print. */
  function Entry(d: Dialect, key: string, v: Value): (string, string)
  {
    if d == WikidataLabels && key == "labels" then ("wdlabels", Format(v))
    else if d == QuotedDocumentId && key == "document_id" then (key, "\"" + Format(v) + "\"")
    else (key, Format(v))
  }

  /** Whether a node attribute is written as data: all but the label
    * attribute, unless the dialect's special key is checked first. */
  predicate Written(d: Dialect, key: string, nlab: string)
  {
    key == SpecialKey(d) || key != nlab
  }

  /** The data elements of one node, for its attributes `ks` in order. */
  function NodeData(a: Attrs, ks: seq<string>, nlab: string, d: Dialect): (r: seq<(string, string)>)
    requires forall k :: k in ks ==> k in a.vals
    ensures |r| <= |ks|
    ensures forall k :: k in ks && Written(d, k, nlab) ==> Entry(d, k, a.vals[k]) in r
  {
    if |ks| == 0 then []
    else
      var init := NodeData(a, ks[..|ks| - 1], nlab, d);
      var k := ks[|ks| - 1];
      assert forall x :: x in ks <==> x in ks[..|ks| - 1] || x == k;
      if Written(d, k, nlab) then init + [Entry(d, k, a.vals[k])] else init
  }

  /** Every data element comes from an attribute that is written. */
  lemma {:induction false} NodeDataSound(a: Attrs, ks: seq<string>, nlab: string, d: Dialect, p: (string, string))
    requires forall k :: k in ks ==> k in a.vals
    requires p in NodeData(a, ks, nlab, d)
    ensures exists k :: k in ks && Written(d, k, nlab) && p == Entry(d, k, a.vals[k])
  {
    var init := ks[..|ks| - 1];
    var k := ks[|ks| - 1];
    assert forall x :: x in init ==> x in ks;
    if p in NodeData(a, init, nlab, d) {
      NodeDataSound(a, init, nlab, d, p);
      var x :| x in init && Written(d, x, nlab) && p == Entry(d, x, a.vals[x]);
      assert x in ks;
    } else {
      assert p == Entry(d, k, a.vals[k]) && Written(d, k, nlab);
    }
  }

  /** The label attribute never becomes a data element, unless the dialect
    * itself writes it: as `wdlabels` or as the quoted `document_id`. */
  lemma LabelIsNotData(a: Attrs, ks: seq<string>, nlab: string, d: Dialect, p: (string, string))
    requires forall k :: k in ks ==> k in a.vals
    requires p in NodeData(a, ks, nlab, d)
    requires nlab != SpecialKey(d) && nlab != "wdlabels"
    ensures p.0 != nlab
  {
    NodeDataSound(a, ks, nlab, d, p);
    var k :| k in ks && Written(d, k, nlab) && p == Entry(d, k, a.vals[k]);
  }

  function DataLine(p: (string, string)): string
  {
    "  <data key=\"" + p.0 + "\">" + p.1 + "</data>\n"
  }

  function DataLines(ps: seq<(string, string)>): string
  {
    if |ps| == 0 then "" else DataLines(ps[..|ps| - 1]) + DataLine(ps[|ps| - 1])
  }

  lemma DataLinesAppend(ps: seq<(string, string)>, p: (string, string))
    ensures DataLines(ps + [p]) == DataLines(ps) + DataLine(p)
  {
    assert (ps + [p])[..|ps|] == ps;
  }

  /** One more attribute of a node: its line, if it is written. */
  lemma NodeDataNext(a: Attrs, nlab: string, d: Dialect, j: nat)
    requires a.Valid() && j < |a.keys|
    ensures DataLines(NodeData(a, a.keys[..j + 1], nlab, d)) ==
            DataLines(NodeData(a, a.keys[..j], nlab, d)) + if Written(d, a.keys[j], nlab) then DataLine(Entry(d, a.keys[j], a.vals[a.keys[j]])) else ""
  {
    assert a.keys[..j + 1][..j] == a.keys[..j];
    if Written(d, a.keys[j], nlab) {
      DataLinesAppend(NodeData(a, a.keys[..j], nlab, d), Entry(d, a.keys[j], a.vals[a.keys[j]]));
    }
  }

  /** One more attribute of an edge: its line, unless it is the label. */
  lemma EdgeDataNext(a: Attrs, elab: string, j: nat)
    requires a.Valid() && j < |a.keys|
    ensures DataLines(EdgeData(a, a.keys[..j + 1], elab)) ==
            DataLines(EdgeData(a, a.keys[..j], elab)) + if a.keys[j] != elab then DataLine((a.keys[j], Format(a.vals[a.keys[j]]))) else ""
  {
    assert a.keys[..j + 1][..j] == a.keys[..j];
    if a.keys[j] != elab {
      DataLinesAppend(EdgeData(a, a.keys[..j], elab), (a.keys[j], Format(a.vals[a.keys[j]])));
    }
  }

  /** One node as written: its new id, the printed label twice, its data. */
  datatype NodeRecord = NodeRecord(id: string, nlabel: string, data: seq<(string, string)>)

  function NodeText(r: NodeRecord): string
  {
    "<node id=\"" + r.id + "\" labels=\":" + r.nlabel + "\"><data key=\"labels\">:" + r.nlabel + "</data>\n" +
    DataLines(r.data) + "</node>\n"
  }

  function NodeTexts(rs: seq<NodeRecord>): string
  {
    if |rs| == 0 then "" else NodeTexts(rs[..|rs| - 1]) + NodeText(rs[|rs| - 1])
  }

  lemma NodeTextsAppend(rs: seq<NodeRecord>, r: NodeRecord)
    ensures NodeTexts(rs + [r]) == NodeTexts(rs) + NodeText(r)
  {
    assert (rs + [r])[..|rs|] == rs;
  }

  /** Every listed node key has attributes, each a well-formed dictionary. */
  ghost predicate NodesReadable(g: Graph)
  {
    forall i :: 0 <= i < |g.nodes.keys| ==> g.nodes.keys[i] in g.nodes.vals && g.nodes.vals[g.nodes.keys[i]].Valid()
  }

  lemma WellFormedReadable(g: Graph)
    requires WellFormed(g)
    ensures NodesReadable(g)
  {
    forall i | 0 <= i < |g.nodes.keys|
      ensures g.nodes.keys[i] in g.nodes.vals
    {
      assert g.nodes.keys[i] in g.nodes.keys;
    }
  }

  /** A node the writer gets through: a key with a second piece and a label. */
  predicate NodeWritable(g: Graph, i: nat, nlab: string)
    requires NodesReadable(g) && i < |g.nodes.keys|
  {
    |Split(g.nodes.keys[i], '_')| >= 2 && nlab in g.nodes.vals[g.nodes.keys[i]].vals
  }

  /** The node with key `key`, attributes `a` and position `i` as written,
    * or the exception its key or its missing label raises. */
  function NodeStep(key: string, a: Attrs, i: nat, nlab: string, d: Dialect): (r: Result<NodeRecord, PyError>)
    requires a.Valid()
    ensures r.Success? <==> |Split(key, '_')| >= 2 && nlab in a.vals
    ensures r.Success? ==> NodeId(key, i) == Success(r.value.id) && r.value.nlabel == Format(a.vals[nlab]) &&
                           r.value.data == NodeData(a, a.keys, nlab, d)
  {
    var id :- NodeId(key, i);
    if nlab !in a.vals then Failure(KeyError(nlab))
    else Success(NodeRecord(id, Format(a.vals[nlab]), NodeData(a, a.keys, nlab, d)))
  }

  /** The first `m` nodes written; the first node that cannot be written
    * raises. */
  function NodesUpTo(g: Graph, nlab: string, d: Dialect, m: nat): (r: Result<seq<NodeRecord>, PyError>)
    requires NodesReadable(g) && m <= |g.nodes.keys|
    ensures r.Success? <==> forall i :: 0 <= i < m ==> NodeWritable(g, i, nlab)
    ensures r.Success? ==> |r.value| == m
  {
    if m == 0 then Success([])
    else
      var prev :- NodesUpTo(g, nlab, d, m - 1);
      var key := g.nodes.keys[m - 1];
      var step := NodeStep(key, g.nodes.vals[key], m - 1, nlab, d);
      if step.Failure? then
        assert !NodeWritable(g, m - 1, nlab);
        Failure(step.error)
      else Success(prev + [step.value])
  }

  /** Nodes that can be written all have a second `_` piece in their keys. */
  lemma WritableKeysSplit(g: Graph, nlab: string)
    requires NodesReadable(g) && forall i :: 0 <= i < |g.nodes.keys| ==> NodeWritable(g, i, nlab)
    ensures forall i :: 0 <= i < |g.nodes.keys| ==> |Split(g.nodes.keys[i], '_')| >= 2
  {
    forall i | 0 <= i < |g.nodes.keys|
      ensures |Split(g.nodes.keys[i], '_')| >= 2
    {
      assert NodeWritable(g, i, nlab);
    }
  }

  /** Node `i` is written under its new id, with its printed label and its
    * data elements. */
  lemma {:induction false} NodesUpToMeaning(g: Graph, nlab: string, d: Dialect, m: nat, i: nat)
    requires NodesReadable(g) && i < m <= |g.nodes.keys| && NodesUpTo(g, nlab, d, m).Success?
    ensures var a := g.nodes.vals[g.nodes.keys[i]];
            var rec := NodesUpTo(g, nlab, d, m).value[i];
            NodeId(g.nodes.keys[i], i) == Success(rec.id) &&
            nlab in a.vals && rec.nlabel == Format(a.vals[nlab]) && rec.data == NodeData(a, a.keys, nlab, d)
    decreases m
  {
    NodesUpToLast(g, nlab, d, m);
    if i < m - 1 {
      NodesUpToMeaning(g, nlab, d, m - 1, i);
    }
  }

  /** A successful run over `m` nodes is the run over the first `m - 1`
    * followed by the record of the last one. */
  lemma NodesUpToLast(g: Graph, nlab: string, d: Dialect, m: nat)
    requires NodesReadable(g) && 0 < m <= |g.nodes.keys| && NodesUpTo(g, nlab, d, m).Success?
    ensures NodesUpTo(g, nlab, d, m - 1).Success?
    ensures var key := g.nodes.keys[m - 1];
            var step := NodeStep(key, g.nodes.vals[key], m - 1, nlab, d);
            step.Success? && NodesUpTo(g, nlab, d, m).value == NodesUpTo(g, nlab, d, m - 1).value + [step.value]
  {
  }

  /** The new ids of those of the first `m` nodes that have one. */
  function IdsUpTo(g: Graph, m: nat): (ids: map<string, string>)
    requires WellFormed(g) && m <= |g.nodes.keys|
    ensures forall k :: k in ids ==> k in g.nodes.vals
    ensures forall i :: 0 <= i < m && NodeId(g.nodes.keys[i], i).Success? ==>
              g.nodes.keys[i] in ids && NodeId(g.nodes.keys[i], i) == Success(ids[g.nodes.keys[i]])
  {
    if m == 0 then map[]
    else
      var keys := g.nodes.keys;
      assert forall i :: 0 <= i < m - 1 ==> keys[i] != keys[m - 1];
      match NodeId(keys[m - 1], m - 1)
      case Success(id) => IdsUpTo(g, m - 1)[keys[m - 1] := id]
      case Failure(_) => IdsUpTo(g, m - 1)
  }

  /** The `nodes` dictionary of the writer: each node key to its new id. */
  function NewIds(g: Graph): (ids: map<string, string>)
    requires WellFormed(g)
    requires forall i :: 0 <= i < |g.nodes.keys| ==> |Split(g.nodes.keys[i], '_')| >= 2
    ensures forall k :: k in ids <==> k in g.nodes.vals
    ensures forall i :: 0 <= i < |g.nodes.keys| ==> NodeId(g.nodes.keys[i], i) == Success(ids[g.nodes.keys[i]])
  {
    IdsUpTo(g, |g.nodes.keys|)
  }

  /** No two nodes share a new id. */
  lemma NewIdsDistinct(g: Graph, k1: string, k2: string)
    requires WellFormed(g)
    requires forall i :: 0 <= i < |g.nodes.keys| ==> |Split(g.nodes.keys[i], '_')| >= 2
    requires k1 in g.nodes.vals && k2 in g.nodes.vals && k1 != k2
    ensures NewIds(g)[k1] != NewIds(g)[k2]
  {
    var keys := g.nodes.keys;
    var i :| 0 <= i < |keys| && keys[i] == k1;
    var j :| 0 <= j < |keys| && keys[j] == k2;
    NodeIdsDistinct(k1, i, k2, j);
  }

  // ---- Edges -----------------------------------------------------------------

  /** One edge as written: its number, the new ids of its ends, its printed
    * label and its other attributes. */
  datatype EdgeRecord = EdgeRecord(no: nat, source: string, target: string, elabel: string, data: seq<(string, string)>)

  /** The data elements of one edge: every attribute but the label. */
  function EdgeData(a: Attrs, ks: seq<string>, elab: string): (r: seq<(string, string)>)
    requires forall k :: k in ks ==> k in a.vals
    ensures forall p :: p in r ==> p.0 != elab && p.0 in ks && p.1 == Format(a.vals[p.0])
    ensures forall k :: k in ks && k != elab ==> (k, Format(a.vals[k])) in r
  {
    if |ks| == 0 then []
    else
      var init := EdgeData(a, ks[..|ks| - 1], elab);
      var k := ks[|ks| - 1];
      assert forall x :: x in ks <==> x in ks[..|ks| - 1] || x == k;
      if k == elab then init else init + [(k, Format(a.vals[k]))]
  }

  function EdgeText(r: EdgeRecord): string
  {
    "<edge id=\"e" + NatToString(r.no) + "\" source=\"" + r.source + "\" target=\"" + r.target +
    "\" label=\"" + r.elabel + "\"><data key=\"label\">" + r.elabel + "</data>\n" +
    DataLines(r.data) + "</edge>\n"
  }

  function EdgeTexts(rs: seq<EdgeRecord>): string
  {
    if |rs| == 0 then "" else EdgeTexts(rs[..|rs| - 1]) + EdgeText(rs[|rs| - 1])
  }

  lemma EdgeTextsAppend(rs: seq<EdgeRecord>, r: EdgeRecord)
    ensures EdgeTexts(rs + [r]) == EdgeTexts(rs) + EdgeText(r)
  {
    assert (rs + [r])[..|rs|] == rs;
  }

  predicate EdgeWritable(e: Edge, ids: map<string, string>, elab: string)
  {
    e.src in ids && e.dst in ids && elab in e.attrs.vals
  }

  /** Edge `i` as written, or the KeyError of an end without an id or of a
    * missing label. */
  function EdgeStep(e: Edge, ids: map<string, string>, elab: string, i: nat): (r: Result<EdgeRecord, PyError>)
    requires forall k :: k in e.attrs.keys ==> k in e.attrs.vals
    ensures r.Success? <==> EdgeWritable(e, ids, elab)
    ensures r.Success? ==> r.value == EdgeRecord(i, ids[e.src], ids[e.dst], Format(e.attrs.vals[elab]), EdgeData(e.attrs, e.attrs.keys, elab))
  {
    if e.src !in ids then Failure(KeyError(e.src))
    else if e.dst !in ids then Failure(KeyError(e.dst))
    else if elab !in e.attrs.vals then Failure(KeyError(elab))
    else Success(EdgeRecord(i, ids[e.src], ids[e.dst], Format(e.attrs.vals[elab]), EdgeData(e.attrs, e.attrs.keys, elab)))
  }

  /** The first `m` edges written, numbered from 0, between the new ids; an
    * edge without the label raises KeyError. */
  function EdgesUpTo(es: seq<Edge>, ids: map<string, string>, elab: string, m: nat): (r: Result<seq<EdgeRecord>, PyError>)
    requires m <= |es| && forall i, k :: 0 <= i < |es| && k in es[i].attrs.keys ==> k in es[i].attrs.vals
    ensures r.Success? <==> forall i :: 0 <= i < m ==> EdgeWritable(es[i], ids, elab)
    ensures r.Success? ==> |r.value| == m
  {
    if m == 0 then Success([])
    else
      var prev :- EdgesUpTo(es, ids, elab, m - 1);
      var rec :- EdgeStep(es[m - 1], ids, elab, m - 1);
      Success(prev + [rec])
  }

  // ---- The whole file -----------------------------------------------------------

  /** The text written for graph `g`, or the exception raised on the way. */
  function Graphml(g: Graph, nlab: string, elab: string, d: Dialect): (r: Result<string, PyError>)
    requires WellFormed(g)
  {
    var es := EdgeOrder(g);
    assert forall i :: 0 <= i < |es| ==> es[i] in g.edges;
    var nodeKeys :- KeyUnion(NodeNames(g));
    var edgeKeys :- KeyUnion(EdgeNames(es));
    WellFormedReadable(g);
    var nodes :- NodesUpTo(g, nlab, d, |g.nodes.keys|);
    WritableKeysSplit(g, nlab);
    var edges :- EdgesUpTo(es, NewIds(g), elab, |es|);
    Success(Header(nodeKeys, edgeKeys) + NodeTexts(nodes) + EdgeTexts(edges) + Footer)
  }

  /** A graph without edges cannot be written: the union of the edge key
    * sets has no argument. */
  lemma NoEdgesNoFile(g: Graph, nlab: string, elab: string, d: Dialect)
    requires WellFormed(g) && g.edges == []
    ensures Graphml(g, nlab, elab, d).Failure? && Graphml(g, nlab, elab, d).error.TypeError?
  {
    EdgeOrderLength(g);
  }

  /** Edge `i` is written as `e<i>` between the new ids of its ends, with its
    * printed label and every other attribute as data. */
  lemma {:induction false} EdgesUpToMeaning(es: seq<Edge>, ids: map<string, string>, elab: string, m: nat, i: nat)
    requires i < m <= |es| && forall j, k :: 0 <= j < |es| && k in es[j].attrs.keys ==> k in es[j].attrs.vals
    requires EdgesUpTo(es, ids, elab, m).Success?
    ensures var rec := EdgesUpTo(es, ids, elab, m).value[i];
            EdgeWritable(es[i], ids, elab) &&
            rec == EdgeRecord(i, ids[es[i].src], ids[es[i].dst], Format(es[i].attrs.vals[elab]), EdgeData(es[i].attrs, es[i].attrs.keys, elab))
    decreases m
  {
    if i < m - 1 {
      EdgesUpToMeaning(es, ids, elab, m - 1, i);
    } else {
      assert EdgeStep(es[i], ids, elab, i).Success?;
    }
  }

  /** When both ends of every edge have ids, the edges go through exactly
    * when each has a label. */
  lemma EdgesWithIds(es: seq<Edge>, ids: map<string, string>, elab: string)
    requires forall i, k :: 0 <= i < |es| && k in es[i].attrs.keys ==> k in es[i].attrs.vals
    requires forall i :: 0 <= i < |es| ==> es[i].src in ids && es[i].dst in ids
    ensures EdgesUpTo(es, ids, elab, |es|).Success? <==> forall i :: 0 <= i < |es| ==> elab in es[i].attrs.vals
  {
    assert forall i :: 0 <= i < |es| ==> (EdgeWritable(es[i], ids, elab) <==> elab in es[i].attrs.vals);
  }

  /** Once every node has an id, the edges go through exactly when each has
    * a label. */
  lemma EdgesSucceed(g: Graph, elab: string)
    requires WellFormed(g)
    requires forall i :: 0 <= i < |g.nodes.keys| ==> |Split(g.nodes.keys[i], '_')| >= 2
    ensures forall i, k :: 0 <= i < |EdgeOrder(g)| && k in EdgeOrder(g)[i].attrs.keys ==> k in EdgeOrder(g)[i].attrs.vals
    ensures EdgesUpTo(EdgeOrder(g), NewIds(g), elab, |EdgeOrder(g)|).Success? <==> forall e :: e in g.edges ==> elab in e.attrs.vals
  {
    var es := EdgeOrder(g);
    assert forall i :: 0 <= i < |es| ==> es[i] in g.edges;
    var ids := NewIds(g);
    EdgesWithIds(es, ids, elab);
  }

  /** The file is written exactly when there is an edge, every node key has
    * a second `_` piece and a label, and every edge has a label. */
  lemma GraphmlSucceeds(g: Graph, nlab: string, elab: string, d: Dialect)
    requires WellFormed(g)
    ensures Graphml(g, nlab, elab, d).Success? <==>
            |g.edges| > 0 &&
            (forall i :: 0 <= i < |g.nodes.keys| ==> NodeWritable(g, i, nlab)) &&
            (forall e :: e in g.edges ==> elab in e.attrs.vals)
  {
    EdgeOrderLength(g);
    WellFormedReadable(g);
    var es := EdgeOrder(g);
    var ns := NodesUpTo(g, nlab, d, |g.nodes.keys|);
    if |g.edges| > 0 {
      assert g.edges[0] in g.edges;
      assert KeyUnion(NodeNames(g)).Success?;
      assert KeyUnion(EdgeNames(es)).Success?;
      if ns.Success? {
        WritableKeysSplit(g, nlab);
        EdgesSucceed(g, elab);
        assert Graphml(g, nlab, elab, d).Success? <==> EdgesUpTo(es, NewIds(g), elab, |es|).Success?;
      } else {
        assert Graphml(g, nlab, elab, d).Failure?;
      }
    } else {
      assert Graphml(g, nlab, elab, d).Failure?;
    }
  }

  // ---- The writer as it runs: one write per line ---------------------------------

  lemma {:induction false} NodesUpToStops(g: Graph, nlab: string, d: Dialect, i: nat, m: nat, e: PyError)
    requires NodesReadable(g) && i < m <= |g.nodes.keys|
    requires NodesUpTo(g, nlab, d, i + 1) == Failure(e)
    ensures NodesUpTo(g, nlab, d, m) == Failure(e)
    decreases m
  {
    if m > i + 1 {
      NodesUpToStops(g, nlab, d, i, m - 1, e);
      NodesUpToFailed(g, nlab, d, m);
    }
  }

  lemma NodesUpToFailed(g: Graph, nlab: string, d: Dialect, m: nat)
    requires NodesReadable(g) && 0 < m <= |g.nodes.keys|
    requires NodesUpTo(g, nlab, d, m - 1).Failure?
    ensures NodesUpTo(g, nlab, d, m) == NodesUpTo(g, nlab, d, m - 1)
  {
  }

  lemma {:induction false} EdgesUpToStops(es: seq<Edge>, ids: map<string, string>, elab: string, i: nat, m: nat)
    requires i < m <= |es| && forall j, k :: 0 <= j < |es| && k in es[j].attrs.keys ==> k in es[j].attrs.vals
    requires EdgesUpTo(es, ids, elab, i + 1).Failure?
    ensures EdgesUpTo(es, ids, elab, m) == EdgesUpTo(es, ids, elab, i + 1)
    decreases m
  {
    if m > i + 1 {
      EdgesUpToStops(es, ids, elab, i, m - 1);
    }
  }

  method WriteKeyLines(keys: seq<string>, kind: string) returns (s: string)
    ensures s == KeyLines(keys, kind)
  {
    s := "";
    var j := 0;
    while j < |keys|
      invariant 0 <= j <= |keys|
      invariant s == KeyLines(keys[..j], kind)
    {
      assert keys[..j + 1][..j] == keys[..j];
      s := s + KeyLine(keys[j], kind);
      j := j + 1;
    }
    assert keys[..|keys|] == keys;
  }

  /** `for key in attr: ...` for one node. */
  method WriteNodeData(a: Attrs, nlab: string, d: Dialect) returns (s: string)
    requires a.Valid()
    ensures s == DataLines(NodeData(a, a.keys, nlab, d))
  {
    s := "";
    var j := 0;
    while j < |a.keys|
      invariant 0 <= j <= |a.keys|
      invariant s == DataLines(NodeData(a, a.keys[..j], nlab, d))
    {
      var key := a.keys[j];
      NodeDataNext(a, nlab, d, j);
      if Written(d, key, nlab) {
        s := s + DataLine(Entry(d, key, a.vals[key]));
      }
      j := j + 1;
    }
    assert a.keys[..|a.keys|] == a.keys;
  }

  /** `for key in attr: ...` for one edge. */
  method WriteEdgeData(a: Attrs, elab: string) returns (s: string)
    requires a.Valid()
    ensures s == DataLines(EdgeData(a, a.keys, elab))
  {
    s := "";
    var j := 0;
    while j < |a.keys|
      invariant 0 <= j <= |a.keys|
      invariant s == DataLines(EdgeData(a, a.keys[..j], elab))
    {
      var key := a.keys[j];
      EdgeDataNext(a, elab, j);
      if key != elab {
        s := s + DataLine((key, Format(a.vals[key])));
      }
      j := j + 1;
    }
    assert a.keys[..|a.keys|] == a.keys;
  }

  /** One more node written: the records and the ids grow by that node. */
  lemma NodesUpToNext(g: Graph, nlab: string, d: Dialect, i: nat, recs: seq<NodeRecord>)
    requires WellFormed(g) && NodesReadable(g) && i < |g.nodes.keys|
    requires NodesUpTo(g, nlab, d, i) == Success(recs)
    requires NodeStep(g.nodes.keys[i], g.nodes.vals[g.nodes.keys[i]], i, nlab, d).Success?
    ensures NodesUpTo(g, nlab, d, i + 1) == Success(recs + [NodeStep(g.nodes.keys[i], g.nodes.vals[g.nodes.keys[i]], i, nlab, d).value])
    ensures IdsUpTo(g, i + 1) == IdsUpTo(g, i)[g.nodes.keys[i] := NodeStep(g.nodes.keys[i], g.nodes.vals[g.nodes.keys[i]], i, nlab, d).value.id]
  {
  }

  /** The body of the node loop for one node: its new id and its text. */
  method WriteNode(key: string, a: Attrs, i: nat, nlab: string, d: Dialect) returns (r: Result<(string, string), PyError>)
    requires a.Valid()
    ensures r.Success? <==> NodeStep(key, a, i, nlab, d).Success?
    ensures r.Failure? ==> r.error == NodeStep(key, a, i, nlab, d).error
    ensures r.Success? ==> r.value == (NodeStep(key, a, i, nlab, d).value.id, NodeText(NodeStep(key, a, i, nlab, d).value))
  {
    var parts := Split(key, '_');
    if |parts| < 2 {
      return Failure(IndexError("list index out of range"));
    }
    var id := parts[0] + "_" + parts[1] + "_" + NatToString(i);
    if nlab !in a.vals {
      return Failure(KeyError(nlab));
    }
    var data := WriteNodeData(a, nlab, d);
    var nodeLabel := Format(a.vals[nlab]);
    ghost var rec := NodeRecord(id, nodeLabel, NodeData(a, a.keys, nlab, d));
    var piece := "<node id=\"" + id + "\" labels=\":" + nodeLabel + "\"><data key=\"labels\">:" +
                 nodeLabel + "</data>\n" + data + "</node>\n";
    assert piece == NodeText(rec);
    return Success((id, piece));
  }

  /** The node loop: the text of every node in order, and the new ids. */
  method WriteNodes(graph: PropertyGraph, nlab: string, d: Dialect) returns (r: Result<string, PyError>, ids: map<string, string>)
    requires graph.Valid()
    ensures r.Success? <==> NodesUpTo(graph.State(), nlab, d, |graph.nodes.keys|).Success?
    ensures r.Failure? ==> r.error == NodesUpTo(graph.State(), nlab, d, |graph.nodes.keys|).error
    ensures r.Success? ==> (forall i :: 0 <= i < |graph.nodes.keys| ==> |Split(graph.nodes.keys[i], '_')| >= 2) &&
                           r.value == NodeTexts(NodesUpTo(graph.State(), nlab, d, |graph.nodes.keys|).value) &&
                           ids == NewIds(graph.State())
  {
    ghost var g := graph.State();
    WellFormedReadable(g);
    var keys := graph.nodes.keys;
    var text := "";
    ids := map[];
    ghost var recs: seq<NodeRecord> := [];
    var i := 0;
    while i < |keys|
      invariant 0 <= i <= |keys|
      invariant NodesUpTo(g, nlab, d, i) == Success(recs)
      invariant ids == IdsUpTo(g, i)
      invariant text == NodeTexts(recs)
    {
      var key := keys[i];
      var step := WriteNode(key, graph.nodes.vals[key], i, nlab, d);
      if step.Failure? {
        NodesUpToStops(g, nlab, d, i, |keys|, step.error);
        return Failure(step.error), ids;
      }
      ghost var rec := NodeStep(key, graph.nodes.vals[key], i, nlab, d).value;
      NodesUpToNext(g, nlab, d, i, recs);
      ids := ids[key := step.value.0];
      NodeTextsAppend(recs, rec);
      text := text + step.value.1;
      recs := recs + [rec];
      i := i + 1;
    }
    WritableKeysSplit(g, nlab);
    return Success(text), ids;
  }

  /** The body of the edge loop for edge number `i`: its text. */
  method WriteEdge(e: Edge, ids: map<string, string>, elab: string, i: nat) returns (r: Result<string, PyError>)
    requires e.attrs.Valid()
    ensures r.Success? <==> EdgeStep(e, ids, elab, i).Success?
    ensures r.Failure? ==> r.error == EdgeStep(e, ids, elab, i).error
    ensures r.Success? ==> r.value == EdgeText(EdgeStep(e, ids, elab, i).value)
  {
    if e.src !in ids {
      return Failure(KeyError(e.src));
    }
    if e.dst !in ids {
      return Failure(KeyError(e.dst));
    }
    if elab !in e.attrs.vals {
      return Failure(KeyError(elab));
    }
    var data := WriteEdgeData(e.attrs, elab);
    var edgeLabel := Format(e.attrs.vals[elab]);
    ghost var rec := EdgeRecord(i, ids[e.src], ids[e.dst], edgeLabel, EdgeData(e.attrs, e.attrs.keys, elab));
    var piece := "<edge id=\"e" + NatToString(i) + "\" source=\"" + ids[e.src] + "\" target=\"" + ids[e.dst] +
                 "\" label=\"" + edgeLabel + "\"><data key=\"label\">" + edgeLabel + "</data>\n" + data + "</edge>\n";
    assert piece == EdgeText(rec);
    return Success(piece);
  }

  /** The edge loop: the text of every edge in the order given. */
  method WriteEdges(es: seq<Edge>, ids: map<string, string>, elab: string) returns (r: Result<string, PyError>)
    requires forall j :: 0 <= j < |es| ==> es[j].attrs.Valid()
    ensures forall j, k :: 0 <= j < |es| && k in es[j].attrs.keys ==> k in es[j].attrs.vals
    ensures r.Success? <==> EdgesUpTo(es, ids, elab, |es|).Success?
    ensures r.Failure? ==> r.error == EdgesUpTo(es, ids, elab, |es|).error
    ensures r.Success? ==> r.value == EdgeTexts(EdgesUpTo(es, ids, elab, |es|).value)
  {
    var text := "";
    ghost var recs: seq<EdgeRecord> := [];
    var i := 0;
    while i < |es|
      invariant 0 <= i <= |es|
      invariant EdgesUpTo(es, ids, elab, i) == Success(recs)
      invariant text == EdgeTexts(recs)
    {
      var step := WriteEdge(es[i], ids, elab, i);
      if step.Failure? {
        EdgesUpToStops(es, ids, elab, i, |es|);
        return Failure(step.error);
      }
      ghost var rec := EdgeStep(es[i], ids, elab, i).value;
      EdgeTextsAppend(recs, rec);
      text := text + step.value;
      recs := recs + [rec];
      i := i + 1;
    }
    return Success(text);
  }

  /** `__write_graphml(file)` / `write_xml(graph, file)` / `write_graphml(graph,
    * file)`: the path written to and the text, or the exception raised. */
  method WriteGraphml(graph: PropertyGraph, file: string, nlab: string, elab: string, d: Dialect)
    returns (path: string, r: Result<string, PyError>)
    requires graph.Valid()
    ensures path == OutputPath(file)
    ensures r == Graphml(graph.State(), nlab, elab, d)
  {
    path := OutputPath(file);
    var g := graph.State();
    var es := EdgeOrder(g);
    assert forall i :: 0 <= i < |es| ==> es[i] in g.edges;
    var nodeKeys := KeyUnion(NodeNames(g));
    if nodeKeys.Failure? {
      return path, Failure(nodeKeys.error);
    }
    var text := Preamble;
    var lines := WriteKeyLines(nodeKeys.value, "node");
    text := text + lines + KeyLine("label", "node");
    var edgeKeys := KeyUnion(EdgeNames(es));
    if edgeKeys.Failure? {
      return path, Failure(edgeKeys.error);
    }
    lines := WriteKeyLines(edgeKeys.value, "edge");
    text := text + lines + KeyLine("label", "edge") + GraphOpen;
    var nodes, ids := WriteNodes(graph, nlab, d);
    if nodes.Failure? {
      return path, Failure(nodes.error);
    }
    var edges := WriteEdges(es, ids, elab);
    if edges.Failure? {
      return path, Failure(edges.error);
    }
    text := text + nodes.value + edges.value + Footer;
    return path, Success(text);
  }
}
