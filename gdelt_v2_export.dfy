// The export helpers of the second GDELT builder: every article with the
// words of its neighbours, one vertex table per node label, one edge table
// per edge label, and the GraphML writer that quotes `document_id`.
module GdeltV2Export {
  import opened Wrappers
  import opened Text
  import opened Values
  import opened OrderedDicts
  import opened Graphs
  import opened RowCalls
  import opened GdeltV2Graph
  import GdeltGraph
  import GraphmlWriter

  // ---- export_all_csv ------------------------------------------------------------

  /** What one neighbour adds to its article's words: nothing for a source
    * `S_`, the lower-cased attribute `attr` of a location `L_` (which
    * `graph.nodes[y][attr]` may miss and `.lower()` may refuse), and
    * otherwise the lower-cased key without its two-character prefix. */
  function Word(g: Graph, y: string, attr: string): Result<Option<string>, PyError>
  {
    if StartsWith(y, "S_") then Success(None)
    else if StartsWith(y, "L_") then
      match Attr(g, y, attr)
      case None => Failure(KeyError(attr))
      case Some(v) => if v.Str? then Success(Some(Lower(v.s))) else Failure(AttributeError("lower"))
    else Success(Some(Lower(Drop(y, 2))))
  }

  /** The list `t` after the neighbours `ys`, or the first exception. */
  function Words(g: Graph, ys: seq<string>, attr: string): Result<seq<string>, PyError>
    decreases |ys|
  {
    if |ys| == 0 then Success([])
    else
      var init :- Words(g, ys[..|ys| - 1], attr);
      var w :- Word(g, ys[|ys| - 1], attr);
      Success(if w.Some? then init + [w.value] else init)
  }

  /** `(' '.join(t)).replace(',', '')` for the neighbours of article `n`. */
  function ArticleText(g: Graph, n: string, attr: string): Result<string, PyError>
  {
    var ws :- Words(g, Successors(g, n), attr);
    Success(Replace(Join(ws, " "), ",", ""))
  }

  /** `temp` after the nodes `keys`: one entry `n[2:]` per article `A_`, in
    * node order (two articles never share `n[2:]`, so the dictionary is
    * this list of pairs). */
  function AllRows(g: Graph, keys: seq<string>, attr: string): Result<seq<(string, string)>, PyError>
    decreases |keys|
  {
    if |keys| == 0 then Success([])
    else
      var init :- AllRows(g, keys[..|keys| - 1], attr);
      var n := keys[|keys| - 1];
      if !StartsWith(n, "A_") then Success(init)
      else
        var text :- ArticleText(g, n, attr);
        Success(init + [(Drop(n, 2), text)])
  }

  /** The attribute `export_all_csv` reads from location nodes. */
  const AsWrittenAttr := "full_name"
  /** The attribute the second builder stores a location's full name under. */
  const LocationNameAttr := "name"

  predicate IsLocationString(g: Graph, y: string, attr: string)
  {
    Attr(g, y, attr).Some? && Attr(g, y, attr).value.Str?
  }

  /** The words are read without exception exactly when every location
    * neighbour carries a string under `attr`. */
  lemma {:induction false} WordsSucceed(g: Graph, ys: seq<string>, attr: string)
    ensures Words(g, ys, attr).Success? <==>
            forall i :: 0 <= i < |ys| && StartsWith(ys[i], "L_") ==> IsLocationString(g, ys[i], attr)
    decreases |ys|
  {
    if |ys| > 0 {
      var init := ys[..|ys| - 1];
      WordsSucceed(g, init, attr);
      assert forall i :: 0 <= i < |init| ==> init[i] == ys[i];
      var y := ys[|ys| - 1];
      if StartsWith(y, "L_") {
        assert !StartsWith(y, "S_");
      }
    }
  }

  /** The words are the lower-cased keys and names: no capital letter. */
  lemma {:induction false} WordsAreLower(g: Graph, ys: seq<string>, attr: string)
    requires Words(g, ys, attr).Success?
    ensures forall w :: w in Words(g, ys, attr).value ==> NoUpper(w)
    decreases |ys|
  {
    if |ys| > 0 {
      WordsAreLower(g, ys[..|ys| - 1], attr);
    }
  }

  /** The neighbours that are sources, `S_...`, in order. */
  function SourceKeys(ys: seq<string>): (r: seq<string>)
    ensures |r| <= |ys|
    ensures forall y :: y in r <==> y in ys && StartsWith(y, "S_")
    decreases |ys|
  {
    if |ys| == 0 then []
    else
      var init := ys[..|ys| - 1];
      assert forall y :: y in ys <==> y in init || y == ys[|ys| - 1];
      SourceKeys(init) + (if StartsWith(ys[|ys| - 1], "S_") then [ys[|ys| - 1]] else [])
  }

  /** There is one word per neighbour that is not a source. */
  lemma {:induction false} WordsCount(g: Graph, ys: seq<string>, attr: string)
    requires Words(g, ys, attr).Success?
    ensures |Words(g, ys, attr).value| == |ys| - |SourceKeys(ys)|
    decreases |ys|
  {
    if |ys| > 0 {
      WordsCount(g, ys[..|ys| - 1], attr);
    }
  }

  /** Removing the commas leaves none, and adds no capital letter. */
  lemma {:induction false} CommasRemoved(s: string)
    ensures ',' !in Replace(s, ",", "")
    ensures NoUpper(s) ==> NoUpper(Replace(s, ",", ""))
    decreases |s|
  {
    if |s| > 0 {
      CommasRemoved(s[1..]);
      if s[..1] != "," {
        assert s[0] != ',';
      }
    }
  }

  /** Joining with a space adds no capital letter. */
  lemma {:induction false} JoinedLower(parts: seq<string>)
    requires forall p :: p in parts ==> NoUpper(p)
    ensures NoUpper(Join(parts, " "))
    decreases |parts|
  {
    if |parts| > 1 {
      assert forall p :: p in parts[1..] ==> p in parts;
      JoinedLower(parts[1..]);
      assert parts[0] in parts;
    }
  }

  /** An article's text is lower-case and free of commas (so it never
    * needs quoting for the `;`-separated file because of a comma). */
  lemma TextIsLowerWithoutCommas(g: Graph, n: string, attr: string)
    requires ArticleText(g, n, attr).Success?
    ensures ',' !in ArticleText(g, n, attr).value && NoUpper(ArticleText(g, n, attr).value)
  {
    var ws := Words(g, Successors(g, n), attr).value;
    WordsAreLower(g, Successors(g, n), attr);
    JoinedLower(ws);
    CommasRemoved(Join(ws, " "));
  }

  /** Every article of `keys` gets its row, keyed by its id without `A_`,
    * and every row is one article's; nothing else is listed. */
  lemma {:induction false} AllRowsMeaning(g: Graph, keys: seq<string>, attr: string)
    requires AllRows(g, keys, attr).Success?
    ensures forall n :: n in keys && StartsWith(n, "A_") ==>
              ArticleText(g, n, attr).Success? && (Drop(n, 2), ArticleText(g, n, attr).value) in AllRows(g, keys, attr).value
    ensures forall p :: p in AllRows(g, keys, attr).value ==>
              exists n :: n in keys && StartsWith(n, "A_") && p == (Drop(n, 2), ArticleText(g, n, attr).value)
    decreases |keys|
  {
    if |keys| > 0 {
      var init := keys[..|keys| - 1];
      AllRowsMeaning(g, init, attr);
      assert forall x :: x in keys <==> x in init || x == keys[|keys| - 1];
    }
  }

  /** Two articles never share a row key. */
  lemma ArticleKeysApart(n: string, m: string)
    requires StartsWith(n, "A_") && StartsWith(m, "A_") && Drop(n, 2) == Drop(m, 2)
    ensures n == m
  {
    assert n == n[..2] + Drop(n, 2) && m == m[..2] + Drop(m, 2);
  }

  /** The rows follow the articles one for one: as many rows as articles. */
  lemma {:induction false} AllRowsCount(g: Graph, keys: seq<string>, attr: string)
    requires AllRows(g, keys, attr).Success?
    ensures |AllRows(g, keys, attr).value| == |StartingWithA(keys)|
    decreases |keys|
  {
    if |keys| > 0 {
      AllRowsCount(g, keys[..|keys| - 1], attr);
    }
  }

  /** The article keys, in node order. */
  function StartingWithA(keys: seq<string>): (r: seq<string>)
    ensures forall n :: n in r <==> n in keys && StartsWith(n, "A_")
    decreases |keys|
  {
    if |keys| == 0 then []
    else
      var init := keys[..|keys| - 1];
      assert forall x :: x in keys <==> x in init || x == keys[|keys| - 1];
      StartingWithA(init) + (if StartsWith(keys[|keys| - 1], "A_") then [keys[|keys| - 1]] else [])
  }

  /** Export succeeds exactly when every location neighbour of every article
    * has a string under `attr`. */
  lemma {:induction false} AllRowsSucceed(g: Graph, keys: seq<string>, attr: string)
    ensures AllRows(g, keys, attr).Success? <==>
            forall n, y :: n in keys && StartsWith(n, "A_") && y in Successors(g, n) && StartsWith(y, "L_") ==>
              IsLocationString(g, y, attr)
    decreases |keys|
  {
    if |keys| > 0 {
      var init := keys[..|keys| - 1];
      var n := keys[|keys| - 1];
      AllRowsSucceed(g, init, attr);
      WordsSucceedAt(g, n, attr);
      assert forall x :: x in keys <==> x in init || x == n;
    }
  }

  lemma WordsSucceedAt(g: Graph, n: string, attr: string)
    ensures ArticleText(g, n, attr).Success? <==>
            forall y :: y in Successors(g, n) && StartsWith(y, "L_") ==> IsLocationString(g, y, attr)
  {
    var ys := Successors(g, n);
    WordsSucceed(g, ys, attr);
    assert forall y :: y in ys ==> exists i :: 0 <= i < |ys| && ys[i] == y;
  }

  // ---- The attribute export_all_csv reads ---------------------------------------

  /** No node of `g` has an attribute named `a`. */
  ghost predicate NoNodeHas(g: Graph, a: string)
  {
    forall n :: n in g.nodes.vals ==> a !in g.nodes.vals[n].vals
  }

  /** No node operation among `ops` passes an attribute named `a`. */
  ghost predicate OpsAvoid(ops: seq<GraphOp>, a: string)
  {
    forall op :: op in ops && op.AddNodeOp? ==> forall p :: p in op.attrs ==> p.0 != a
  }

  /** Without an attribute `a` anywhere, reading it fails with `KeyError(a)`
    * and with nothing else. */
  lemma {:induction false} WordsFailOnKey(g: Graph, ys: seq<string>, a: string)
    requires NoNodeHas(g, a)
    requires Words(g, ys, a).Failure?
    ensures Words(g, ys, a).error == KeyError(a)
    decreases |ys|
  {
    var init := ys[..|ys| - 1];
    if Words(g, init, a).Failure? {
      WordsFailOnKey(g, init, a);
    }
  }

  lemma {:induction false} AllRowsFailOnKey(g: Graph, keys: seq<string>, a: string)
    requires NoNodeHas(g, a)
    requires AllRows(g, keys, a).Failure?
    ensures AllRows(g, keys, a).error == KeyError(a)
    decreases |keys|
  {
    var init := keys[..|keys| - 1];
    if AllRows(g, init, a).Failure? {
      AllRowsFailOnKey(g, init, a);
    } else {
      var n := keys[|keys| - 1];
      WordsFailOnKey(g, Successors(g, n), a);
    }
  }

  lemma ApplyOpAvoids(g: Graph, op: GraphOp, a: string)
    requires WellFormed(g) && NoNodeHas(g, a)
    requires op.AddNodeOp? ==> forall p :: p in op.attrs ==> p.0 != a
    ensures NoNodeHas(ApplyOp(g, op), a)
  {
    if op.AddNodeOp? {
      assert a !in FromPairs(op.attrs).vals;
    }
  }

  lemma {:induction false} ApplyOpsAvoid(g: Graph, ops: seq<GraphOp>, a: string)
    requires WellFormed(g) && NoNodeHas(g, a) && OpsAvoid(ops, a)
    ensures NoNodeHas(ApplyOps(g, ops), a)
    decreases |ops|
  {
    if |ops| > 0 {
      assert ops[0] in ops;
      ApplyOpAvoids(g, ops[0], a);
      assert forall op :: op in ops[1..] ==> op in ops;
      ApplyOpsAvoid(ApplyOp(g, ops[0]), ops[1..], a);
    }
  }

  lemma ThenAvoids(x: Step, y: Step, a: string)
    requires OpsAvoid(x.ops, a) && OpsAvoid(y.ops, a)
    ensures OpsAvoid(Then(x, y).ops, a)
  {
  }

  lemma {:induction false} ItemOpsAvoid(sel: Selection, article: string, items: seq<string>)
    requires |sel.nlabel| > 0
    ensures OpsAvoid(ItemOps(sel, article, items), AsWrittenAttr)
    decreases |items|
  {
    if |items| > 0 {
      ItemOpsAvoid(sel, article, items[1..]);
    }
  }

  lemma {:induction false} TableOpsAvoid(article: string, t: seq<seq<Value>>)
    requires forall i :: 0 <= i < |t| ==> |t[i]| == 7
    ensures OpsAvoid(TableOps(article, t), AsWrittenAttr)
    decreases |t|
  {
    if |t| > 0 {
      TableOpsAvoid(article, t[1..]);
    }
  }

  lemma SelectionAvoids(row: Row, sel: Selection, article: string)
    requires |sel.nlabel| > 0
    ensures OpsAvoid(SelectionStep(row, sel, article).ops, AsWrittenAttr)
  {
    var c := Cell(row, sel.column);
    if c.Success? && !IsNaN(c.value) && c.value.Str? {
      ItemOpsAvoid(sel, article, Split(c.value.s, ';'));
    }
  }

  lemma LocationsAvoid(row: Row, article: string)
    ensures OpsAvoid(LocationsStep(row, article).ops, AsWrittenAttr)
  {
    var c := Cell(row, "LOCATIONS");
    if c.Success? && !IsNaN(c.value) && c.value.Str?
       && GdeltGraph.Width(GdeltGraph.Entries(c.value.s)) == 7 {
      TableOpsAvoid(article, GdeltGraph.LocationTable(c.value.s));
    }
  }

  lemma ArticleCallAvoids(row: Row, tone: seq<Value>)
    requires ArticleCall(row, tone).Success?
    ensures forall p :: p in ArticleCall(row, tone).value.attrs ==> p.0 != AsWrittenAttr
  {
    var head := Kwargs(row, ArticleHead).value;
    assert forall i :: 0 <= i < |head| ==> head[i].0 == ArticleHead[i].name;
  }

  /** No record of the second builder names a node attribute `full_name`. */
  lemma RecordAvoids(row: Row)
    ensures OpsAvoid(RecordStep(row).ops, AsWrittenAttr)
  {
    var t := Cell(row, "5TONE");
    if t.Success? && GdeltGraph.Tone(t.value).Success? {
      var tone := GdeltGraph.Tone(t.value).value;
      var call := ArticleCall(row, tone);
      if call.Success? {
        var op := call.value;
        ArticleCallAvoids(row, tone);
        SelectionAvoids(row, Sources, op.key);
        SelectionAvoids(row, Persons, op.key);
        SelectionAvoids(row, Organizations, op.key);
        SelectionAvoids(row, Themes, op.key);
        LocationsAvoid(row, op.key);
        var last := LocationsStep(row, op.key);
        var s4 := Then(SelectionStep(row, Themes, op.key), last);
        ThenAvoids(SelectionStep(row, Themes, op.key), last, AsWrittenAttr);
        var s3 := Then(SelectionStep(row, Organizations, op.key), s4);
        ThenAvoids(SelectionStep(row, Organizations, op.key), s4, AsWrittenAttr);
        var s2 := Then(SelectionStep(row, Persons, op.key), s3);
        ThenAvoids(SelectionStep(row, Persons, op.key), s3, AsWrittenAttr);
        var s1 := Then(SelectionStep(row, Sources, op.key), s2);
        ThenAvoids(SelectionStep(row, Sources, op.key), s2, AsWrittenAttr);
        ThenAvoids(Do([op]), s1, AsWrittenAttr);
      }
    }
  }

  /** Graphs built by the second builder never hold a `full_name` attribute. */
  lemma {:induction false} BuiltGraphsLackFullName(g: Graph, df: Frame)
    requires WellFormed(g) && NoNodeHas(g, AsWrittenAttr)
    ensures NoNodeHas(Ingest(g, EachRow(df, RecordStep)).0, AsWrittenAttr)
    decreases |df|
  {
    if |df| > 0 {
      var steps := EachRow(df, RecordStep);
      assert steps[0] == RecordStep(df[0].1) && steps[1..] == EachRow(df[1..], RecordStep);
      RecordAvoids(df[0].1);
      ApplyOpsAvoid(g, steps[0].ops, AsWrittenAttr);
      BuiltGraphsLackFullName(ApplyOps(g, steps[0].ops), df[1..]);
    }
  }

  /** As written, `export_all_csv` raises `KeyError('full_name')` on every
    * graph of the second builder in which some article has a location:
    * the builder stores a location's full name under `name`. */
  lemma AsWrittenExportFails(df: Frame, n: string, y: string)
    requires var g := Ingest(EmptyGraph(), EachRow(df, RecordStep)).0;
             n in g.nodes.vals && StartsWith(n, "A_") && y in Successors(g, n) && StartsWith(y, "L_")
    ensures var g := Ingest(EmptyGraph(), EachRow(df, RecordStep)).0;
            AllRows(g, g.nodes.keys, AsWrittenAttr) == Failure(KeyError("full_name"))
  {
    var g := Ingest(EmptyGraph(), EachRow(df, RecordStep)).0;
    BuiltGraphsLackFullName(EmptyGraph(), df);
    ExportFailsWithout(g, n, y);
  }

  /** Without any `full_name` attribute, one article with one location is
    * enough for `export_all_csv` as written to raise `KeyError`. */
  lemma ExportFailsWithout(g: Graph, n: string, y: string)
    requires WellFormed(g) && NoNodeHas(g, AsWrittenAttr)
    requires n in g.nodes.vals && StartsWith(n, "A_") && y in Successors(g, n) && StartsWith(y, "L_")
    ensures AllRows(g, g.nodes.keys, AsWrittenAttr) == Failure(KeyError("full_name"))
  {
    assert n in g.nodes.keys;
    assert !IsLocationString(g, y, AsWrittenAttr);
    AllRowsSucceed(g, g.nodes.keys, AsWrittenAttr);
    AllRowsFailOnKey(g, g.nodes.keys, AsWrittenAttr);
  }

  /** Read under `name`, the export succeeds on every graph whose article
    * locations carry a string name. */
  lemma CorrectedExportSucceeds(g: Graph)
    requires WellFormed(g)
    requires forall n, y :: n in g.nodes.vals && StartsWith(n, "A_") && y in Successors(g, n) && StartsWith(y, "L_") ==>
               IsLocationString(g, y, LocationNameAttr)
    ensures AllRows(g, g.nodes.keys, LocationNameAttr).Success?
  {
    AllRowsSucceed(g, g.nodes.keys, LocationNameAttr);
  }

  lemma {:induction false} WordsStop(g: Graph, ys: seq<string>, attr: string, i: nat, m: nat)
    requires i < m <= |ys| && Words(g, ys[..i + 1], attr).Failure?
    ensures Words(g, ys[..m], attr) == Words(g, ys[..i + 1], attr)
    decreases m
  {
    if m > i + 1 {
      WordsStop(g, ys, attr, i, m - 1);
      assert ys[..m][..m - 1] == ys[..m - 1];
    }
  }

  lemma {:induction false} AllRowsStop(g: Graph, keys: seq<string>, attr: string, i: nat, m: nat)
    requires i < m <= |keys| && AllRows(g, keys[..i + 1], attr).Failure?
    ensures AllRows(g, keys[..m], attr) == AllRows(g, keys[..i + 1], attr)
    decreases m
  {
    if m > i + 1 {
      AllRowsStop(g, keys, attr, i, m - 1);
      assert keys[..m][..m - 1] == keys[..m - 1];
    }
  }

  /** The inner loop of `export_all_csv`: `t` for the neighbours of article
    * `n`, joined and stripped of commas, reading each location's `name`. */
  method ArticleWords(graph: PropertyGraph, n: string) returns (r: Result<string, PyError>)
    requires graph.Valid()
    ensures r == ArticleText(graph.State(), n, LocationNameAttr)
  {
    var g := graph.State();
    var ys := Successors(g, n);
    var t: seq<string> := [];
    var i := 0;
    while i < |ys|
      invariant 0 <= i <= |ys|
      invariant Words(g, ys[..i], LocationNameAttr) == Success(t)
    {
      assert ys[..i + 1][..i] == ys[..i];
      var w := Word(g, ys[i], LocationNameAttr);
      if w.Failure? {
        WordsStop(g, ys, LocationNameAttr, i, |ys|);
        assert ys[..|ys|] == ys;
        return Failure(w.error);
      }
      if w.value.Some? {
        t := t + [w.value.value];
      }
      i := i + 1;
    }
    assert ys[..i] == ys;
    r := Success(Replace(Join(t, " "), ",", ""));
  }

  /** `export_all_csv(graph, file)`, with locations read under `name`: the
    * rows of `temp`, in node order, or the exception raised. */
  method ExportAllCsv(graph: PropertyGraph) returns (r: Result<seq<(string, string)>, PyError>)
    requires graph.Valid()
    ensures r == AllRows(graph.State(), graph.nodes.keys, LocationNameAttr)
  {
    var g := graph.State();
    var keys := graph.nodes.keys;
    var temp: seq<(string, string)> := [];
    var i := 0;
    while i < |keys|
      invariant 0 <= i <= |keys|
      invariant AllRows(g, keys[..i], LocationNameAttr) == Success(temp)
    {
      assert keys[..i + 1][..i] == keys[..i];
      var node := keys[i];
      if StartsWith(node, "A_") {
        var text := ArticleWords(graph, node);
        if text.Failure? {
          AllRowsStop(g, keys, LocationNameAttr, i, |keys|);
          assert keys[..|keys|] == keys;
          return Failure(text.error);
        }
        temp := temp + [(Drop(node, 2), text.value)];
      }
      i := i + 1;
    }
    assert keys[..i] == keys;
    r := Success(temp);
  }

  // ---- export_vertex_csv -----------------------------------------------------------

  /** A vertex file: the header and one row per selected node. */
  datatype VertexTable = VertexTable(header: seq<string>, rows: seq<seq<Value>>)

  /** `x.nlabel == label` for a node: a missing attribute is None, and
    * neither None nor NaN ever compares equal. */
  predicate HasLabel(g: Graph, n: string, lab: Value)
  {
    Attr(g, n, "nlabel") == Some(lab) && !lab.Missing? && !lab.Null?
  }

  /** The nodes kept by `x[x.nlabel == label]`, in node order. */
  function Labelled(g: Graph, keys: seq<string>, lab: Value): (r: seq<string>)
    ensures forall n :: n in r <==> n in keys && HasLabel(g, n, lab)
    decreases |keys|
  {
    if |keys| == 0 then []
    else
      var init := keys[..|keys| - 1];
      assert forall x :: x in keys <==> x in init || x == keys[|keys| - 1];
      Labelled(g, init, lab) + (if HasLabel(g, keys[|keys| - 1], lab) then [keys[|keys| - 1]] else [])
  }

  /** The columns after `drop('nlabel')`. */
  function WithoutLabel(cs: seq<string>): (r: seq<string>)
    ensures forall c :: c in r <==> c in cs && c != "nlabel"
    ensures (forall i, j :: 0 <= i < j < |cs| ==> cs[i] != cs[j]) ==> forall i, j :: 0 <= i < j < |r| ==> r[i] != r[j]
    decreases |cs|
  {
    if |cs| == 0 then []
    else
      var rest := WithoutLabel(cs[1..]);
      assert forall x :: x in cs <==> x == cs[0] || x in cs[1..];
      assert (forall i, j :: 0 <= i < j < |cs| ==> cs[i] != cs[j]) ==>
             cs[0] !in cs[1..] && forall i, j :: 0 <= i < j < |cs[1..]| ==> cs[1..][i] != cs[1..][j];
      if cs[0] == "nlabel" then rest else [cs[0]] + rest
  }

  /** One node's row: `graph.nodes(data=col)` gives None for a missing attribute. */
  function VertexRow(g: Graph, n: string, header: seq<string>): (r: seq<Value>)
  {
    seq(|header|, j requires 0 <= j < |header| => Attr(g, n, header[j]).UnwrapOr(Null))
  }

  /** `export_vertex_csv(graph, file, cols, label)`, after the columns
    * `columns` were added: without an `nlabel` column `x.nlabel` raises. */
  function VertexCsv(g: Graph, columns: seq<string>, lab: Value): Result<VertexTable, PyError>
  {
    if "nlabel" !in columns then Failure(AttributeError("nlabel"))
    else
      var header := WithoutLabel(columns);
      var ns := Labelled(g, g.nodes.keys, lab);
      Success(VertexTable(header, seq(|ns|, i requires 0 <= i < |ns| => VertexRow(g, ns[i], header))))
  }

  /** The table holds the columns asked for except `nlabel`, each once, and
    * one row per node carrying the label, in node order, with its
    * attributes (None where missing). */
  lemma VertexCsvMeaning(g: Graph, cols: seq<string>, lab: Value)
    ensures VertexCsv(g, Distinct(cols), lab).Success? <==> "nlabel" in cols
    ensures VertexCsv(g, Distinct(cols), lab).Success? ==>
              var t := VertexCsv(g, Distinct(cols), lab).value;
              var ns := Labelled(g, g.nodes.keys, lab);
              (forall c :: c in t.header <==> c in cols && c != "nlabel") &&
              (forall i, j :: 0 <= i < j < |t.header| ==> t.header[i] != t.header[j]) &&
              |t.rows| == |ns| &&
              forall i, j :: 0 <= i < |ns| && 0 <= j < |t.header| ==>
                |t.rows[i]| == |t.header| && t.rows[i][j] == Attr(g, ns[i], t.header[j]).UnwrapOr(Null)
  {
  }

  /** `export_vertex_csv`: the loop `for col in cols: x[col] = ...` adds each
    * column once, in first-seen order; the selection follows. */
  method ExportVertexCsv(graph: PropertyGraph, cols: seq<string>, lab: Value) returns (r: Result<VertexTable, PyError>)
    requires graph.Valid()
    ensures r == VertexCsv(graph.State(), Distinct(cols), lab)
  {
    var columns: seq<string> := [];
    var i := 0;
    while i < |cols|
      invariant 0 <= i <= |cols|
      invariant columns == Distinct(cols[..i])
    {
      assert cols[..i + 1][..i] == cols[..i];
      if cols[i] !in columns {
        columns := columns + [cols[i]];
      }
      i := i + 1;
    }
    assert cols[..i] == cols;
    r := VertexCsv(graph.State(), columns, lab);
  }

  // ---- export_edge_csv -------------------------------------------------------------

  /** `graph.edges(data='elabel')` with both endpoints cut after two
    * characters: source, target and label (None when missing). */
  function EdgeTable(g: Graph): (t: seq<(string, string, Value)>)
    requires WellFormed(g)
    ensures |t| == |EdgeOrder(g)|
  {
    var es := EdgeOrder(g);
    seq(|es|, i requires 0 <= i < |es| => (Drop(es[i].src, 2), Drop(es[i].dst, 2), es[i].attrs.GetOr("elabel", Null)))
  }

  function Labels(t: seq<(string, string, Value)>): (r: seq<Value>)
    ensures |r| == |t| && forall i :: 0 <= i < |t| ==> r[i] == t[i].2
  {
    seq(|t|, i requires 0 <= i < |t| => t[i].2)
  }

  /** The rows of `x.loc[x.Edge == label, ['Source', 'Target']]`, in order. */
  function RowsWith(t: seq<(string, string, Value)>, lab: Value): (r: seq<(string, string)>)
    ensures forall p :: p in r <==> exists e :: e in t && e.2 == lab && p == (e.0, e.1)
    decreases |t|
  {
    if |t| == 0 then []
    else
      var init := t[..|t| - 1];
      var e := t[|t| - 1];
      assert forall x :: x in t <==> x in init || x == e;
      RowsWith(init, lab) + (if e.2 == lab then [(e.0, e.1)] else [])
  }

  /** One file written: its name and its rows under the header `Source,Target`. */
  datatype EdgeFile = EdgeFile(name: string, rows: seq<(string, string)>)

  /** The files written for the labels in turn, and the exception that
    * stopped the loop, if any: `label.lower()` needs a string. */
  function EdgeFiles(t: seq<(string, string, Value)>, labels: seq<Value>, path: string): (r: (seq<EdgeFile>, Option<PyError>))
    ensures |r.0| <= |labels|
    decreases |labels|
  {
    if |labels| == 0 then ([], None)
    else
      var init := EdgeFiles(t, labels[..|labels| - 1], path);
      var lab := labels[|labels| - 1];
      if init.1.Some? then init
      else if !lab.Str? then (init.0, Some(AttributeError("lower")))
      else (init.0 + [EdgeFile(path + Lower(lab.s) + ".csv", RowsWith(t, lab))], None)
  }

  /** The loop finishes exactly when every label is a string. */
  lemma {:induction false} EdgeFilesFinish(t: seq<(string, string, Value)>, labels: seq<Value>, path: string)
    ensures EdgeFiles(t, labels, path).1.None? <==> forall l :: l in labels ==> l.Str?
    decreases |labels|
  {
    if |labels| > 0 {
      var init := labels[..|labels| - 1];
      EdgeFilesFinish(t, init, path);
      assert forall x :: x in labels <==> x in init || x == labels[|labels| - 1];
    }
  }

  /** Every file written is the file of one of the labels, with exactly the
    * rows of that label. */
  lemma {:induction false} EdgeFilesSound(t: seq<(string, string, Value)>, labels: seq<Value>, path: string)
    ensures forall f :: f in EdgeFiles(t, labels, path).0 ==>
              exists l :: l in labels && l.Str? && f == EdgeFile(path + Lower(l.s) + ".csv", RowsWith(t, l))
    decreases |labels|
  {
    if |labels| > 0 {
      var init := labels[..|labels| - 1];
      EdgeFilesSound(t, init, path);
      assert forall x :: x in init ==> x in labels;
    }
  }

  /** When the loop finishes, every label has its file. */
  lemma {:induction false} EdgeFilesComplete(t: seq<(string, string, Value)>, labels: seq<Value>, path: string)
    ensures EdgeFiles(t, labels, path).1.None? ==>
              forall l :: l in labels && l.Str? ==> EdgeFile(path + Lower(l.s) + ".csv", RowsWith(t, l)) in EdgeFiles(t, labels, path).0
    decreases |labels|
  {
    if |labels| > 0 {
      var init := labels[..|labels| - 1];
      EdgeFilesComplete(t, init, path);
      assert forall x :: x in labels <==> x in init || x == labels[|labels| - 1];
    }
  }

  /** `export_edge_csv(graph, path)`: each distinct label in first-seen order. */
  function EdgeCsv(g: Graph, path: string): (seq<EdgeFile>, Option<PyError>)
    requires WellFormed(g)
  {
    var t := EdgeTable(g);
    EdgeFiles(t, Counter(Labels(t)).keys, path)
  }

  /** The label loop over the table `t` finishes exactly when every label
    * is a string, and then each row goes to the file of its label. */
  lemma TableFilesComplete(t: seq<(string, string, Value)>, path: string)
    ensures var r := EdgeFiles(t, Counter(Labels(t)).keys, path);
            (r.1.None? <==> forall x :: x in t ==> x.2.Str?) &&
            (r.1.None? ==> forall x :: x in t ==>
               exists f :: f in r.0 && f.name == path + Lower(x.2.s) + ".csv" && (x.0, x.1) in f.rows)
  {
    var labels := Counter(Labels(t)).keys;
    var r := EdgeFiles(t, labels, path);
    EdgeFilesFinish(t, labels, path);
    EdgeFilesComplete(t, labels, path);
    TableLabels(t);
    if r.1.None? {
      forall x | x in t
        ensures exists f :: f in r.0 && f.name == path + Lower(x.2.s) + ".csv" && (x.0, x.1) in f.rows
      {
        var f := EdgeFile(path + Lower(x.2.s) + ".csv", RowsWith(t, x.2));
        assert f in r.0;
      }
    }
  }

  /** Each written row is a row of the file's label. */
  lemma TableFilesSound(t: seq<(string, string, Value)>, path: string)
    ensures var r := EdgeFiles(t, Counter(Labels(t)).keys, path);
            forall f, p :: f in r.0 && p in f.rows ==>
              exists x :: x in t && x.2.Str? && f.name == path + Lower(x.2.s) + ".csv" && p == (x.0, x.1)
  {
    var labels := Counter(Labels(t)).keys;
    var r := EdgeFiles(t, labels, path);
    EdgeFilesSound(t, labels, path);
    forall f, p | f in r.0 && p in f.rows
      ensures exists x :: x in t && x.2.Str? && f.name == path + Lower(x.2.s) + ".csv" && p == (x.0, x.1)
    {
      var l :| l in labels && l.Str? && f == EdgeFile(path + Lower(l.s) + ".csv", RowsWith(t, l));
      var x :| x in t && x.2 == l && p == (x.0, x.1);
    }
  }

  /** The distinct labels are exactly the labels of the rows. */
  lemma TableLabels(t: seq<(string, string, Value)>)
    ensures forall l :: l in Counter(Labels(t)).keys <==> exists x :: x in t && x.2 == l
  {
    assert forall l :: l in Counter(Labels(t)).keys <==> l in Labels(t);
    forall l | l in Labels(t) ensures exists x :: x in t && x.2 == l {
      var i :| 0 <= i < |t| && Labels(t)[i] == l;
      assert t[i] in t;
    }
    forall x | x in t ensures x.2 in Labels(t) {
      var i :| 0 <= i < |t| && t[i] == x;
      assert Labels(t)[i] == x.2;
    }
  }

  /** The table lists every edge, as its two ids without prefix and its label. */
  lemma EdgeTableComplete(g: Graph)
    requires WellFormed(g)
    ensures forall e :: e in g.edges ==> (Drop(e.src, 2), Drop(e.dst, 2), e.attrs.GetOr("elabel", Null)) in EdgeTable(g)
  {
    var es := EdgeOrder(g);
    forall e | e in g.edges
      ensures (Drop(e.src, 2), Drop(e.dst, 2), e.attrs.GetOr("elabel", Null)) in EdgeTable(g)
    {
      var i :| 0 <= i < |es| && es[i] == e;
      assert EdgeTable(g)[i] == (Drop(e.src, 2), Drop(e.dst, 2), e.attrs.GetOr("elabel", Null));
    }
  }

  /** Every row of the table comes from an edge. */
  lemma EdgeTableSound(g: Graph)
    requires WellFormed(g)
    ensures forall x :: x in EdgeTable(g) ==>
              exists e :: e in g.edges && x == (Drop(e.src, 2), Drop(e.dst, 2), e.attrs.GetOr("elabel", Null))
  {
    var es := EdgeOrder(g);
    var t := EdgeTable(g);
    forall x | x in t
      ensures exists e :: e in g.edges && x == (Drop(e.src, 2), Drop(e.dst, 2), e.attrs.GetOr("elabel", Null))
    {
      var i :| 0 <= i < |t| && t[i] == x;
      assert es[i] in es;
    }
  }

  /** Every edge of the graph is written, as its two ids without prefix, to
    * the file of its label, unless some edge's label is not a string; and
    * every written row is such an edge. */
  lemma EdgeCsvMeaning(g: Graph, path: string)
    requires WellFormed(g)
    ensures EdgeCsv(g, path).1.None? <==> forall e :: e in g.edges ==> e.attrs.GetOr("elabel", Null).Str?
    ensures EdgeCsv(g, path).1.None? ==>
              forall e :: e in g.edges ==>
                exists f :: f in EdgeCsv(g, path).0 && f.name == path + Lower(e.attrs.GetOr("elabel", Null).s) + ".csv" &&
                            (Drop(e.src, 2), Drop(e.dst, 2)) in f.rows
    ensures forall f, p :: f in EdgeCsv(g, path).0 && p in f.rows ==>
              exists e :: e in g.edges && e.attrs.GetOr("elabel", Null).Str? &&
                f.name == path + Lower(e.attrs.GetOr("elabel", Null).s) + ".csv" && p == (Drop(e.src, 2), Drop(e.dst, 2))
  {
    TableFilesComplete(EdgeTable(g), path);
    TableFilesSound(EdgeTable(g), path);
    EdgeTableComplete(g);
    EdgeTableSound(g);
  }

  lemma {:induction false} EdgeFilesStop(t: seq<(string, string, Value)>, labels: seq<Value>, path: string, i: nat, m: nat)
    requires i < m <= |labels| && EdgeFiles(t, labels[..i + 1], path).1.Some?
    ensures EdgeFiles(t, labels[..m], path) == EdgeFiles(t, labels[..i + 1], path)
    decreases m
  {
    if m > i + 1 {
      EdgeFilesStop(t, labels, path, i, m - 1);
      assert labels[..m][..m - 1] == labels[..m - 1];
    }
  }

  /** The loop `for label in x.Edge.unique()` over the table `t`. */
  method WriteEdgeFiles(t: seq<(string, string, Value)>, labels: seq<Value>, path: string)
    returns (files: seq<EdgeFile>, failure: Option<PyError>)
    ensures (files, failure) == EdgeFiles(t, labels, path)
  {
    files := [];
    var i := 0;
    while i < |labels|
      invariant 0 <= i <= |labels|
      invariant EdgeFiles(t, labels[..i], path) == (files, None)
    {
      assert labels[..i + 1][..i] == labels[..i];
      var lab := labels[i];
      if !lab.Str? {
        EdgeFilesStop(t, labels, path, i, |labels|);
        assert labels[..|labels|] == labels;
        return files, Some(AttributeError("lower"));
      }
      files := files + [EdgeFile(path + Lower(lab.s) + ".csv", RowsWith(t, lab))];
      i := i + 1;
    }
    assert labels[..i] == labels;
    failure := None;
  }

  /** `export_edge_csv(graph, path)`: the files written, in order, and the
    * exception that stopped the loop, if any. */
  method ExportEdgeCsv(graph: PropertyGraph, path: string) returns (files: seq<EdgeFile>, failure: Option<PyError>)
    requires graph.Valid()
    ensures (files, failure) == EdgeCsv(graph.State(), path)
  {
    var t := EdgeTable(graph.State());
    files, failure := WriteEdgeFiles(t, Counter(Labels(t)).keys, path);
  }

  // ---- write_graphml -------------------------------------------------------------------

  /** `write_graphml(graph, file, nlab, elab)`: the shared GraphML writer,
    * with `document_id` values written in double quotes. */
  method WriteGraphml(graph: PropertyGraph, file: string, nlab: string, elab: string)
    returns (path: string, r: Result<string, PyError>)
    requires graph.Valid()
    ensures path == GraphmlWriter.OutputPath(file)
    ensures r == GraphmlWriter.Graphml(graph.State(), nlab, elab, GraphmlWriter.QuotedDocumentId)
  {
    path, r := GraphmlWriter.WriteGraphml(graph, file, nlab, elab, GraphmlWriter.QuotedDocumentId);
  }
}
