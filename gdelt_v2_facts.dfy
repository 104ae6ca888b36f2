// What one record does in the second GDELT builder, what its statistics add
// up to, and how the filtered export reads back what the builder wrote.
module GdeltV2Facts {
  import opened Wrappers
  import opened Text
  import opened Values
  import opened OrderedDicts
  import opened Graphs
  import opened RowCalls
  import GdeltGraph
  import opened GdeltV2Graph

  // ---- The article ------------------------------------------------------------------

  /** The article call raises exactly when GKGRECORDID or DOCUMENTIDENTIFIER
    * is absent or the tone has fewer than three parts; otherwise it writes
    * `A_<id>` with label ART, the id, the url and tone parts 1 and 2. */
  lemma ArticleCallMeaning(row: Row, tone: seq<Value>)
    ensures ArticleCall(row, tone).Success? <==>
              "GKGRECORDID" in row && "DOCUMENTIDENTIFIER" in row && |tone| >= 3
    ensures ArticleCall(row, tone).Success? ==>
              ArticleCall(row, tone).value ==
                AddNodeOp(ArticlePrefix + Format(row["GKGRECORDID"]),
                          [("nlabel", Str("ART")), ("aid", row["GKGRECORDID"]), ("url", row["DOCUMENTIDENTIFIER"]),
                           ("pos", tone[1]), ("neg", tone[2])])
  {
    KeyOfOneIff(row, ArticlePrefix, Plain("GKGRECORDID"));
    assert FieldResult(row, ArticleHead[1]) == Cell(row, "GKGRECORDID");
    assert FieldResult(row, ArticleHead[2]) == Cell(row, "DOCUMENTIDENTIFIER");
    if "GKGRECORDID" in row {
      KeyOfOne(row, ArticlePrefix, Plain("GKGRECORDID"));
    }
  }

  /** Without a tone the article's scores are zero. */
  lemma MissingToneScores(row: Row)
    requires "GKGRECORDID" in row && "DOCUMENTIDENTIFIER" in row
    ensures GdeltGraph.Tone(Missing).Success?
    ensures var op := ArticleCall(row, GdeltGraph.Tone(Missing).value);
            op.Success? && op.value.attrs[3] == ("pos", Int(0)) && op.value.attrs[4] == ("neg", Int(0))
  {
    ArticleCallMeaning(row, GdeltGraph.Tone(Missing).value);
  }

  // ---- Selections -----------------------------------------------------------------------

  /** The non-empty items, in order. */
  function NonEmpty(items: seq<string>): (r: seq<string>)
    ensures forall x :: x in r <==> x in items && x != ""
    ensures |r| <= |items|
  {
    if |items| == 0 then []
    else
      var rest := NonEmpty(items[1..]);
      assert forall x :: x in items <==> x == items[0] || x in items[1..];
      if items[0] == "" then rest else [items[0]] + rest
  }

  /** The edges from the article to the listed items. */
  function ItemEdges(sel: Selection, article: string, names: seq<string>): (r: seq<Edge>)
    requires |sel.nlabel| > 0
    ensures |r| == |names|
    ensures forall i :: 0 <= i < |names| ==>
              r[i] == Edge(article, ItemKey(sel.nlabel, names[i]), FromPairs([("elabel", Str(sel.elabel))]))
  {
    seq(|names|, i requires 0 <= i < |names| =>
      Edge(article, ItemKey(sel.nlabel, names[i]), FromPairs([("elabel", Str(sel.elabel))])))
  }

  /** A selection adds one edge per non-empty item, in order, and nothing else. */
  lemma {:induction false} ItemOpsEdges(sel: Selection, article: string, items: seq<string>)
    requires |sel.nlabel| > 0
    ensures EdgesOf(ItemOps(sel, article, items)) == ItemEdges(sel, article, NonEmpty(items))
    decreases |items|
  {
    if |items| > 0 {
      ItemOpsEdges(sel, article, items[1..]);
      if items[0] != "" {
        var k := ItemKey(sel.nlabel, items[0]);
        var node := AddNodeOp(k, [("nlabel", Str(sel.nlabel)), ("name", Str(items[0]))]);
        var edge := AddEdgeOp(article, k, [("elabel", Str(sel.elabel))]);
        var rest := ItemOps(sel, article, items[1..]);
        var ops := [node, edge] + rest;
        assert ops[1..] == [edge] + rest;
        assert ([edge] + rest)[1..] == rest;
      }
    }
  }

  /** A selection only writes nodes keyed by its own initial and a non-empty
    * item, labelled with the selection's label and named by the item. */
  lemma {:induction false} ItemOpsNodes(sel: Selection, article: string, items: seq<string>, j: nat)
    requires |sel.nlabel| > 0 && j < |ItemOps(sel, article, items)| && ItemOps(sel, article, items)[j].AddNodeOp?
    ensures var op := ItemOps(sel, article, items)[j];
            exists x :: x in items && x != "" && op.key == ItemKey(sel.nlabel, x) &&
                        op.attrs == [("nlabel", Str(sel.nlabel)), ("name", Str(x))]
    decreases |items|
  {
    if items[0] == "" {
      ItemOpsNodes(sel, article, items[1..], j);
    } else if j >= 2 {
      var k := ItemKey(sel.nlabel, items[0]);
      var head := [AddNodeOp(k, [("nlabel", Str(sel.nlabel)), ("name", Str(items[0]))]),
                   AddEdgeOp(article, k, [("elabel", Str(sel.elabel))])];
      assert ItemOps(sel, article, items)[j] == ItemOps(sel, article, items[1..])[j - 2];
      ItemOpsNodes(sel, article, items[1..], j - 2);
    }
  }

  /** A selected column raises only when absent or not a string; a present
    * `;`-list adds one edge per non-empty item. */
  lemma SelectionMeaning(row: Row, sel: Selection, article: string)
    requires |sel.nlabel| > 0
    ensures SelectionStep(row, sel, article).failure.None? <==>
              sel.column in row && (IsNaN(row[sel.column]) || row[sel.column].Str?)
    ensures SelectionStep(row, sel, article).failure.None? ==>
              EdgesOf(SelectionStep(row, sel, article).ops) ==
                if IsNaN(row[sel.column]) then [] else ItemEdges(sel, article, NonEmpty(Split(row[sel.column].s, ';')))
  {
    if sel.column in row && row[sel.column].Str? {
      ItemOpsEdges(sel, article, Split(row[sel.column].s, ';'));
    }
  }

  /** Items listed as `a;b;...` (non-empty, without `;`) become exactly one
    * edge each, to `<initial>_<item>`, in the listed order. */
  lemma SelectionOfJoin(sel: Selection, article: string, names: seq<string>)
    requires |sel.nlabel| > 0 && |names| >= 1
    requires forall i :: 0 <= i < |names| ==> names[i] != "" && ';' !in names[i]
    ensures EdgesOf(ItemOps(sel, article, Split(Join(names, ";"), ';'))) == ItemEdges(sel, article, names)
  {
    SplitJoin(names, ';');
    ItemOpsEdges(sel, article, names);
    NonEmptyAll(names);
  }

  lemma {:induction false} NonEmptyAll(items: seq<string>)
    requires forall i :: 0 <= i < |items| ==> items[i] != ""
    ensures NonEmpty(items) == items
    decreases |items|
  {
    if |items| > 0 {
      NonEmptyAll(items[1..]);
    }
  }

  /** Items of different selections never share a node, and never an
    * article's or a location's key. */
  lemma ItemKeysApart(x: string, y: string)
    ensures ItemKey(Sources.nlabel, x) != ItemKey(Persons.nlabel, y)
    ensures ItemKey(Sources.nlabel, x) != ItemKey(Organizations.nlabel, y)
    ensures ItemKey(Sources.nlabel, x) != ItemKey(Themes.nlabel, y)
    ensures ItemKey(Persons.nlabel, x) != ItemKey(Organizations.nlabel, y)
    ensures ItemKey(Persons.nlabel, x) != ItemKey(Themes.nlabel, y)
    ensures ItemKey(Organizations.nlabel, x) != ItemKey(Themes.nlabel, y)
    ensures ItemKey(Sources.nlabel, x) != ArticlePrefix + y && ItemKey(Themes.nlabel, x) != "L_" + y
  {
    assert ItemKey(Sources.nlabel, x)[0] == 'S';
    assert ItemKey(Persons.nlabel, x)[0] == 'P' && ItemKey(Persons.nlabel, y)[0] == 'P';
    assert ItemKey(Organizations.nlabel, x)[0] == 'O' && ItemKey(Organizations.nlabel, y)[0] == 'O';
    assert ItemKey(Themes.nlabel, x)[0] == 'T' && ItemKey(Themes.nlabel, y)[0] == 'T';
    assert (ArticlePrefix + y)[0] == 'A' && ("L_" + y)[0] == 'L';
  }

  // ---- Locations --------------------------------------------------------------------------

  function LocationEdges(article: string, t: seq<seq<Value>>): (r: seq<Edge>)
    requires forall i :: 0 <= i < |t| ==> |t[i]| == 7
  {
    if |t| == 0 then []
    else [Edge(article, "L_" + Format(t[0][6]), FromPairs([("elabel", Str("ART_LOC"))]))] + LocationEdges(article, t[1..])
  }

  /** One ART_LOC edge per table row, to `L_<FeatureID>`, in order. */
  lemma {:induction false} TableEdges(article: string, t: seq<seq<Value>>)
    requires forall i :: 0 <= i < |t| ==> |t[i]| == 7
    ensures EdgesOf(TableOps(article, t)) == LocationEdges(article, t)
    ensures |LocationEdges(article, t)| == |t|
    ensures forall i :: 0 <= i < |t| ==> LocationEdges(article, t)[i].dst == "L_" + Format(t[i][6])
    decreases |t|
  {
    if |t| > 0 {
      var ops := LocationOps(article, t[0]);
      TableEdges(article, t[1..]);
      EdgesOfAppend(ops, TableOps(article, t[1..]));
      EdgesOfCons(ops);
      assert ops[1..] == [ops[1]];
      EdgesOfCons(ops[1..]);
      assert ops[1..][1..] == [];
      forall i | 1 <= i < |t|
        ensures LocationEdges(article, t)[i] == LocationEdges(article, t[1..])[i - 1]
      {
      }
    }
  }

  /** A present locations field adds one edge per `;` entry when its table
    * has exactly seven columns, and none otherwise. */
  lemma LocationsMeaning(row: Row, article: string)
    ensures LocationsStep(row, article).failure.None? <==>
              "LOCATIONS" in row && (IsNaN(row["LOCATIONS"]) || row["LOCATIONS"].Str?)
    ensures LocationsStep(row, article).failure.None? && !IsNaN(row["LOCATIONS"]) ==>
              var s := row["LOCATIONS"].s;
              |EdgesOf(LocationsStep(row, article).ops)| ==
                if GdeltGraph.Width(GdeltGraph.Entries(s)) == 7 then |Split(s, ';')| else 0
  {
    if "LOCATIONS" in row && row["LOCATIONS"].Str? {
      var s := row["LOCATIONS"].s;
      if GdeltGraph.Width(GdeltGraph.Entries(s)) == 7 {
        TableEdges(article, GdeltGraph.LocationTable(s));
      }
    }
  }

  // ---- Statistics ---------------------------------------------------------------------------

  /** The per-label counts add up to the totals printed, and each count is
    * the number of nodes (edges) with that label. */
  lemma StatisticsAddUp(g: Graph)
    requires WellFormed(g) && Statistics(g).Success?
    ensures var r := Statistics(g).value;
            SumAt(r.nodes.keys, r.nodes.vals) == r.nodeTotal && SumAt(r.edges.keys, r.edges.vals) == r.edgeTotal
  {
    CounterTotal(NodeLabels(g, g.nodes.keys));
    CounterTotal(EdgeLabels(EdgeOrder(g)));
    EdgeOrderLength(g);
  }

  lemma NodeCount(g: Graph, nlabel: Value)
    requires WellFormed(g) && Statistics(g).Success? && nlabel in Statistics(g).value.nodes.vals
    ensures Statistics(g).value.nodes.vals[nlabel] == Occurrences(NodeLabels(g, g.nodes.keys), nlabel)
  {
    CounterCounts(NodeLabels(g, g.nodes.keys), nlabel);
  }

  // ---- The filtered export ---------------------------------------------------------------------

  /** The export strips exactly the prefix the builder put on an item. */
  lemma StripItemKey(sel: Selection, x: string)
    requires |sel.nlabel| > 0
    ensures Drop(ItemKey(sel.nlabel, x), 2) == x
    ensures ItemKey(sel.nlabel, x)[0] == sel.nlabel[0]
  {
  }

  /** A group column splits back into the stripped neighbour names, when
    * there is at least one and no name holds a `;`. */
  lemma GroupRoundTrip(g: Graph, n: string, c: char)
    requires var names := Stripped(StartingWith(Successors(g, n), c));
             |names| >= 1 && forall i :: 0 <= i < |names| ==> ';' !in names[i]
    ensures Split(Group(g, n, c), ';') == Stripped(StartingWith(Successors(g, n), c))
  {
    SplitJoin(Stripped(StartingWith(Successors(g, n), c)), ';');
  }

  /** The export has one line per ART node, carrying that node's id, url
    * and scores. */
  lemma {:induction false} LinesOfArticles(g: Graph, ns: seq<string>, i: nat)
    requires WellFormed(g) && Lines(g, ns).Success? && i < |ns|
    ensures Line(g, ns[i]).Success? && Lines(g, ns).value[i] == Line(g, ns[i]).value
    ensures Lines(g, ns).value[i].aid == Attr(g, ns[i], "aid").UnwrapOr(Null)
    ensures Lines(g, ns).value[i].url == Attr(g, ns[i], "url").UnwrapOr(Null)
    decreases |ns|
  {
    if i > 0 {
      LinesOfArticles(g, ns[1..], i - 1);
    }
  }

  lemma ExportKeepsArticles(g: Graph, n: string)
    requires WellFormed(g) && FilteredExport(g).Success?
    ensures n in ArtNodes(g, g.nodes.keys) <==> n in g.nodes.keys && Attr(g, n, "nlabel") == Some(Str("ART"))
    ensures |FilteredExport(g).value| == |ArtNodes(g, g.nodes.keys)|
  {
  }
}
