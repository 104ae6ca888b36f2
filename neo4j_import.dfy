// The Neo4j importer for stored graphs: one `MERGE` statement per node,
// holding every attribute that is not missing, with the node's string
// attributes escaped in the graph itself; one `MATCH … MERGE` statement per
// edge. The database session is an oracle that accepts a statement or
// rejects it with a syntax error.
module Neo4jImport {
  import opened Wrappers
  import opened Text
  import opened Values
  import opened OrderedDicts
  import opened Graphs
  import opened GraphmlCleaning
  import WordCleaning

  // ---- Statements ------------------------------------------------------------------

  /** One attribute of a statement: nothing for a missing value, a string in
    * double quotes, any other value as it prints. */
  function Render(k: string, v: Value): (r: string)
    ensures r == "" <==> v.Missing?
  {
    if v.Missing? then ""
    else if v.Str? then ", " + k + ": \"" + v.s + "\""
    else ", " + k + ": " + Format(v)
  }

  /** The attributes `ks` of `a`, in order; a name `a` lacks adds nothing. */
  function Props(a: Attrs, ks: seq<string>): string
    decreases |ks|
  {
    if |ks| == 0 then ""
    else Props(a, ks[..|ks| - 1]) + (if ks[|ks| - 1] in a.vals then Render(ks[|ks| - 1], a.vals[ks[|ks| - 1]]) else "")
  }

  /** `attr[key] = re.sub('"', '\\"', attr[key])` for a string attribute. */
  function Escaped(v: Value): (r: Value)
    ensures r.Str? <==> v.Str?
  {
    if v.Str? then Str(EscapeQuotes(v.s)) else v
  }

  function EscapedAttrs(a: Attrs): Attrs
  {
    MapAttrs(a, Escaped)
  }

  function NodeHead(n: string, nl: Value): string
  {
    "MERGE (n:" + Format(nl) + " {id:'" + n + "'"
  }

  /** The statement for node `n` with attributes `a`: the label as read
    * before escaping, then every attribute, escaped. */
  function NodeStatement(n: string, a: Attrs, nlab: string): string
    requires nlab in a.vals
  {
    NodeHead(n, a.vals[nlab]) + Props(EscapedAttrs(a), a.keys) + "})"
  }

  function EdgeHead(src: string, srcLabel: Value, dst: string, dstLabel: Value, el: Value): string
  {
    "MATCH (a:" + Format(srcLabel) + " {id: '" + src + "'})" +
    " MATCH (b:" + Format(dstLabel) + " {id: '" + dst + "'})" +
    " MERGE (a) - [:" + Format(el) + " {elabel: '" + Format(el) + "'"
  }

  /** The statement for edge `e`, or the `KeyError` of a missing label: the
    * endpoints' labels first, then the edge's; attributes are not escaped. */
  function EdgeStatement(g: Graph, e: Edge, nlab: string, elab: string): (r: Result<string, PyError>)
    requires WellFormed(g) && e in g.edges
    ensures r.Failure? <==> nlab !in g.nodes.vals[e.src].vals || nlab !in g.nodes.vals[e.dst].vals || elab !in e.attrs.vals
  {
    var s := g.nodes.vals[e.src];
    var d := g.nodes.vals[e.dst];
    if nlab !in s.vals || nlab !in d.vals then Failure(KeyError(nlab))
    else if elab !in e.attrs.vals then Failure(KeyError(elab))
    else Success(EdgeHead(e.src, s.vals[nlab], e.dst, d.vals[nlab], e.attrs.vals[elab]) + Props(e.attrs, e.attrs.keys) + "}] -> (b)")
  }

  // ---- What the loops produce ---------------------------------------------------------

  /** The position of the first node without the label attribute, or the
    * number of nodes when all have it. */
  function FirstUnlabelled(g: Graph, nlab: string): (r: nat)
    requires WellFormed(g)
    ensures r <= |g.nodes.keys|
    ensures forall j :: 0 <= j < r ==> nlab in g.nodes.vals[g.nodes.keys[j]].vals
    ensures r < |g.nodes.keys| ==> nlab !in g.nodes.vals[g.nodes.keys[r]].vals
  {
    UnlabelledFrom(g, nlab, 0)
  }

  function UnlabelledFrom(g: Graph, nlab: string, i: nat): (r: nat)
    requires WellFormed(g) && i <= |g.nodes.keys|
    requires forall j :: 0 <= j < i ==> nlab in g.nodes.vals[g.nodes.keys[j]].vals
    ensures i <= r <= |g.nodes.keys|
    ensures forall j :: 0 <= j < r ==> nlab in g.nodes.vals[g.nodes.keys[j]].vals
    ensures r < |g.nodes.keys| ==> nlab !in g.nodes.vals[g.nodes.keys[r]].vals
    decreases |g.nodes.keys| - i
  {
    if i == |g.nodes.keys| || nlab !in g.nodes.vals[g.nodes.keys[i]].vals then i
    else UnlabelledFrom(g, nlab, i + 1)
  }

  /** The statements of the first `m` nodes, in node order. */
  function NodeStatements(g: Graph, nlab: string, m: nat): (r: seq<string>)
    requires WellFormed(g) && m <= |g.nodes.keys|
    requires forall j :: 0 <= j < m ==> nlab in g.nodes.vals[g.nodes.keys[j]].vals
    ensures |r| == m
  {
    if m == 0 then []
    else NodeStatements(g, nlab, m - 1) + [NodeStatement(g.nodes.keys[m - 1], g.nodes.vals[g.nodes.keys[m - 1]], nlab)]
  }

  /** The nodes whose statement the session rejected, in order. */
  function RejectedNodes(ns: seq<string>, stmts: seq<string>, rejects: string -> bool): (r: seq<string>)
    requires |ns| == |stmts|
    ensures |r| <= |ns|
    decreases |ns|
  {
    if |ns| == 0 then []
    else
      var k := |ns| - 1;
      var init := RejectedNodes(ns[..k], stmts[..k], rejects);
      if rejects(stmts[k]) then init + [ns[k]] else init
  }

  /** A node is reported exactly when the statement sent for it was rejected. */
  lemma {:induction false} RejectedNodesMembers(ns: seq<string>, stmts: seq<string>, rejects: string -> bool, x: string)
    requires |ns| == |stmts|
    ensures x in RejectedNodes(ns, stmts, rejects) <==> exists i :: 0 <= i < |ns| && ns[i] == x && rejects(stmts[i])
    decreases |ns|
  {
    if |ns| > 0 {
      var k := |ns| - 1;
      RejectedNodesMembers(ns[..k], stmts[..k], rejects, x);
      if x in RejectedNodes(ns, stmts, rejects) {
        if x in RejectedNodes(ns[..k], stmts[..k], rejects) {
          var i :| 0 <= i < k && ns[..k][i] == x && rejects(stmts[..k][i]);
          assert ns[i] == x && rejects(stmts[i]);
        } else {
          assert ns[k] == x && rejects(stmts[k]);
        }
      }
      if exists i :: 0 <= i < |ns| && ns[i] == x && rejects(stmts[i]) {
        var i :| 0 <= i < |ns| && ns[i] == x && rejects(stmts[i]);
        if i < k {
          assert ns[..k][i] == x && rejects(stmts[..k][i]);
        }
      }
    }
  }

  /** The statement of each edge of `es`, or the error building it raises. */
  function EdgeStatements(g: Graph, es: seq<Edge>, nlab: string, elab: string): (r: seq<Result<string, PyError>>)
    requires WellFormed(g) && forall e :: e in es ==> e in g.edges
    ensures |r| == |es|
    ensures forall i :: 0 <= i < |es| ==> r[i] == EdgeStatement(g, es[i], nlab, elab)
  {
    seq(|es|, i requires 0 <= i < |es| => EdgeStatement(g, es[i], nlab, elab))
  }

  /** Statements built and run in turn until one cannot be built or is
    * rejected: what was sent, and the error that ended the run. */
  function RunUntilError(rs: seq<Result<string, PyError>>, rejects: string -> bool): (r: (seq<string>, Option<PyError>))
    ensures |r.0| <= |rs|
    decreases |rs|
  {
    if |rs| == 0 then ([], None)
    else
      var k := |rs| - 1;
      var init := RunUntilError(rs[..k], rejects);
      if init.1.Some? then init
      else
        match rs[k]
        case Failure(err) => (init.0, Some(err))
        case Success(q) => (init.0 + [q], if rejects(q) then Some(CypherSyntaxError(q)) else None)
  }

  /** A run ends without error exactly when every statement was built and
    * accepted, and then every statement was sent, in order. */
  lemma {:induction false} RunUntilErrorCompletes(rs: seq<Result<string, PyError>>, rejects: string -> bool)
    ensures RunUntilError(rs, rejects).1.None? <==> forall i :: 0 <= i < |rs| ==> rs[i].Success? && !rejects(rs[i].value)
    ensures RunUntilError(rs, rejects).1.None? ==>
              |RunUntilError(rs, rejects).0| == |rs| && forall i :: 0 <= i < |rs| ==> RunUntilError(rs, rejects).0[i] == rs[i].value
    decreases |rs|
  {
    if |rs| > 0 {
      var k := |rs| - 1;
      RunUntilErrorCompletes(rs[..k], rejects);
      assert forall i :: 0 <= i < k ==> rs[..k][i] == rs[i];
    }
  }

  /** A run that ends in error ends at the first statement that could not be
    * built or was rejected; everything before it was sent. */
  lemma {:induction false} RunUntilErrorStops(rs: seq<Result<string, PyError>>, rejects: string -> bool) returns (m: nat)
    requires RunUntilError(rs, rejects).1.Some?
    ensures m < |rs|
    ensures forall i :: 0 <= i < m ==> rs[i].Success? && !rejects(rs[i].value)
    ensures rs[m].Failure? ==> RunUntilError(rs, rejects) == (RunUntilError(rs[..m], rejects).0, Some(rs[m].error))
    ensures rs[m].Success? ==> rejects(rs[m].value)
    ensures rs[m].Success? ==>
              RunUntilError(rs, rejects) == (RunUntilError(rs[..m], rejects).0 + [rs[m].value], Some(CypherSyntaxError(rs[m].value)))
    decreases |rs|
  {
    var k := |rs| - 1;
    var init := RunUntilError(rs[..k], rejects);
    if init.1.Some? {
      m := RunUntilErrorStops(rs[..k], rejects);
      assert rs[..k][..m] == rs[..m];
    } else {
      RunUntilErrorCompletes(rs[..k], rejects);
      m := k;
      assert forall i :: 0 <= i < k ==> rs[..k][i] == rs[i];
    }
  }

  /** Running two lists of statements one after the other. */
  lemma {:induction false} RunAppend(a: seq<Result<string, PyError>>, b: seq<Result<string, PyError>>, rejects: string -> bool)
    ensures var ra := RunUntilError(a, rejects);
            var rb := RunUntilError(b, rejects);
            RunUntilError(a + b, rejects) == if ra.1.Some? then ra else (ra.0 + rb.0, rb.1)
    decreases |b|
  {
    if |b| == 0 {
      assert a + b == a;
      assert RunUntilError(a, rejects).0 + [] == RunUntilError(a, rejects).0;
    } else {
      var k := |b| - 1;
      assert (a + b)[..|a + b| - 1] == a + b[..k];
      RunAppend(a, b[..k], rejects);
      var ra := RunUntilError(a, rejects);
      if ra.1.None? && RunUntilError(b[..k], rejects).1.None? {
        var rk := RunUntilError(b[..k], rejects);
        AppendAssoc(ra.0, rk.0, match b[k] case Success(q) => [q] case Failure(_) => []);
      }
    }
  }

  /** The uniqueness constraints `constraints()` creates, one per node label. */
  const ConstraintLabels: seq<string> :=
    ["SectorGroup", "Sector", "Industry", "Company", "Filer", "Location", "Subdivision", "Country",
     "Organization", "Article", "Person", "Theme", "Group", "Product", "StockExchange", "Grant"]

  function Constraint(nl: string): string
  {
    "CREATE CONSTRAINT ON (n:" + nl + ") ASSERT n.id IS UNIQUE"
  }

  const DeleteAll := "MATCH (n) DETACH DELETE(n)"

  // ---- Properties of the statements ---------------------------------------------------

  lemma {:induction false} PropsAppend(a: Attrs, xs: seq<string>, ys: seq<string>)
    ensures Props(a, xs + ys) == Props(a, xs) + Props(a, ys)
    decreases |ys|
  {
    if |ys| > 0 {
      var k := |ys| - 1;
      assert (xs + ys)[..|xs + ys| - 1] == xs + ys[..k];
      PropsAppend(a, xs, ys[..k]);
    } else {
      assert xs + ys == xs;
    }
  }

  /** `t` is the piece of `s` that starts at position `i`. */
  predicate OccursAt(s: string, t: string, i: nat)
  {
    i + |t| <= |s| && s[i..i + |t|] == t
  }

  /** The text `t` of attribute `ks[p]` appears in the rendered attributes. */
  lemma PropsContain(a: Attrs, ks: seq<string>, p: nat, t: string) returns (i: nat)
    requires p < |ks| && ks[p] in a.vals && t == Render(ks[p], a.vals[ks[p]])
    ensures OccursAt(Props(a, ks), t, i)
  {
    PropsSplit(a, ks, p);
    assert OccursAt(t, t, 0) by {
      assert t[0..|t|] == t;
    }
    i := InMiddle(Props(a, ks), Props(a, ks[..p]), t, Props(a, ks[p + 1..]), 0, t);
  }

  lemma PropsSplit(a: Attrs, ks: seq<string>, p: nat)
    requires p < |ks| && ks[p] in a.vals
    ensures Props(a, ks) == Props(a, ks[..p]) + Render(ks[p], a.vals[ks[p]]) + Props(a, ks[p + 1..])
  {
    assert ks == ks[..p] + ([ks[p]] + ks[p + 1..]);
    PropsAppend(a, ks[..p], [ks[p]] + ks[p + 1..]);
    PropsAppend(a, [ks[p]], ks[p + 1..]);
    PropsSingle(a, ks[p]);
    AppendAssoc(Props(a, ks[..p]), Render(ks[p], a.vals[ks[p]]), Props(a, ks[p + 1..]));
  }

  lemma PropsSingle(a: Attrs, k: string)
    requires k in a.vals
    ensures Props(a, [k]) == Render(k, a.vals[k])
  {
    assert [k][..0] == [];
  }

  lemma InMiddle(s: string, x: string, y: string, z: string, j: nat, t: string) returns (i: nat)
    requires s == x + y + z && OccursAt(y, t, j)
    ensures i == |x| + j && OccursAt(s, t, i)
  {
    i := |x| + j;
    assert s[i..i + |t|] == y[j..j + |t|];
  }

  /** Every attribute of a node that is not missing is in its statement, a
    * string one with its quotes escaped. */
  lemma NodeStatementHasAttr(n: string, a: Attrs, nlab: string, k: string) returns (i: nat)
    requires a.Valid() && nlab in a.vals && k in a.vals && !a.vals[k].Missing?
    ensures var t := Render(k, Escaped(a.vals[k]));
            t != "" && OccursAt(NodeStatement(n, a, nlab), t, i)
  {
    var p :| 0 <= p < |a.keys| && a.keys[p] == k;
    var j := EscapedPropsContain(a, p);
    var head := NodeHead(n, a.vals[nlab]);
    i := InMiddle(NodeStatement(n, a, nlab), head, Props(EscapedAttrs(a), a.keys), "})", j, Render(k, Escaped(a.vals[k])));
  }

  lemma EscapedPropsContain(a: Attrs, p: nat) returns (j: nat)
    requires p < |a.keys| && a.keys[p] in a.vals
    ensures OccursAt(Props(EscapedAttrs(a), a.keys), Render(a.keys[p], Escaped(a.vals[a.keys[p]])), j)
  {
    var ea := EscapedAttrs(a);
    assert ea.vals[a.keys[p]] == Escaped(a.vals[a.keys[p]]);
    j := PropsContain(ea, a.keys, p, Render(a.keys[p], Escaped(a.vals[a.keys[p]])));
  }

  /** Every attribute of an edge that is not missing is in its statement, as
    * it is: a string value keeps its quotes unescaped. */
  lemma EdgeStatementHasAttr(g: Graph, e: Edge, nlab: string, elab: string, k: string) returns (i: nat)
    requires WellFormed(g) && e in g.edges && EdgeStatement(g, e, nlab, elab).Success?
    requires k in e.attrs.vals && !e.attrs.vals[k].Missing?
    ensures var t := Render(k, e.attrs.vals[k]);
            t != "" && OccursAt(EdgeStatement(g, e, nlab, elab).value, t, i)
  {
    var j := AttrPropsContain(e.attrs, k);
    var s := g.nodes.vals[e.src];
    var d := g.nodes.vals[e.dst];
    var head := EdgeHead(e.src, s.vals[nlab], e.dst, d.vals[nlab], e.attrs.vals[elab]);
    i := InMiddle(EdgeStatement(g, e, nlab, elab).value, head, Props(e.attrs, e.attrs.keys), "}] -> (b)", j, Render(k, e.attrs.vals[k]));
  }

  lemma AttrPropsContain(a: Attrs, k: string) returns (j: nat)
    requires a.Valid() && k in a.vals
    ensures OccursAt(Props(a, a.keys), Render(k, a.vals[k]), j)
  {
    var p :| 0 <= p < |a.keys| && a.keys[p] == k;
    j := PropsContain(a, a.keys, p, Render(k, a.vals[k]));
  }

  /** The importer's rewriting of the graph loses nothing: unescaping a string
    * attribute gives the original back, and other attributes are unchanged. */
  lemma EscapedAttrsRoundTrip(a: Attrs, k: string)
    requires k in a.vals
    ensures k in EscapedAttrs(a).vals
    ensures a.vals[k].Str? ==> EscapedAttrs(a).vals[k].Str? && UnescapeQuotes(EscapedAttrs(a).vals[k].s) == a.vals[k].s
    ensures !a.vals[k].Str? ==> EscapedAttrs(a).vals[k] == a.vals[k]
  {
    if a.vals[k].Str? {
      UnescapeEscape(a.vals[k].s);
    }
  }

  lemma {:induction false} EscapeLength(s: string)
    ensures |EscapeQuotes(s)| >= |s|
    ensures '"' in s ==> |EscapeQuotes(s)| > |s| && '"' in EscapeQuotes(s)
    decreases |s|
  {
    if |s| > 0 {
      EscapeLength(s[1..]);
      var head := if s[0] == '"' then "\\\"" else [s[0]];
      assert EscapeQuotes(s) == head + EscapeQuotes(s[1..]);
      if '"' in s && s[0] != '"' {
        assert '"' in s[1..];
      }
      if s[0] == '"' {
        assert head[1] == '"';
      }
    }
  }

  /** The escaping is written into the graph, so importing the same graph a
    * second time escapes every quote again: a string holding a quote is sent
    * differently the second time. */
  lemma ReimportEscapesAgain(s: string)
    requires '"' in s
    ensures EscapeQuotes(EscapeQuotes(s)) != EscapeQuotes(s)
  {
    EscapeLength(s);
    EscapeLength(EscapeQuotes(s));
  }

  // ---- The session and the import loops ----------------------------------------------

  /** A database session: the statements sent so far, and which statements
    * the database rejects with a syntax error. */
  class Session {
    var sent: seq<string>
    const rejects: string -> bool

    constructor (rejects: string -> bool)
      ensures sent == [] && this.rejects == rejects
    {
      sent := [];
      this.rejects := rejects;
    }

    /** `session.run(query)`: the statement is sent; the answer says whether
      * it was accepted. */
    method Run(query: string) returns (ok: bool)
      modifies this
      ensures sent == old(sent) + [query]
      ensures ok <==> !rejects(query)
    {
      sent := sent + [query];
      ok := !rejects(query);
    }

    /** Runs the statements in turn until one cannot be built or is
      * rejected; an error is not caught. */
    method RunAll(rs: seq<Result<string, PyError>>) returns (failure: Option<PyError>)
      modifies this
      ensures sent == old(sent) + RunUntilError(rs, rejects).0
      ensures failure == RunUntilError(rs, rejects).1
    {
      ghost var s0 := sent;
      ghost var out: seq<string> := [];
      assert rs[..0] == [];
      assert sent == s0 + out;
      var i := 0;
      while i < |rs|
        invariant 0 <= i <= |rs|
        invariant sent == s0 + out
        invariant RunUntilError(rs[..i], rejects) == (out, None)
      {
        RunNext(rs, i, rejects);
        if rs[i].Failure? {
          RunStop(rs, i + 1, rejects);
          return Some(rs[i].error);
        }
        var ok := Run(rs[i].value);
        AppendAssoc(s0, out, [rs[i].value]);
        out := out + [rs[i].value];
        if !ok {
          RunStop(rs, i + 1, rejects);
          return Some(CypherSyntaxError(rs[i].value));
        }
        i := i + 1;
      }
      assert rs[..i] == rs;
      return None;
    }

    /** `constraints()`: one uniqueness constraint per label, in order; a
      * rejected statement raises. */
    method Constraints() returns (failure: Option<PyError>)
      modifies this
      ensures var m := |sent| - |old(sent)|;
              0 < m <= |ConstraintLabels| && sent == old(sent) + seq(m, i requires 0 <= i < m => Constraint(ConstraintLabels[i]))
      ensures failure.None? <==> forall i :: 0 <= i < |ConstraintLabels| ==> !rejects(Constraint(ConstraintLabels[i]))
      ensures failure.Some? ==> failure == Some(CypherSyntaxError(sent[|sent| - 1])) && rejects(sent[|sent| - 1])
    {
      var i := 0;
      while i < |ConstraintLabels|
        invariant 0 <= i <= |ConstraintLabels|
        invariant sent == old(sent) + seq(i, j requires 0 <= j < i => Constraint(ConstraintLabels[j]))
        invariant forall j :: 0 <= j < i ==> !rejects(Constraint(ConstraintLabels[j]))
      {
        var q := Constraint(ConstraintLabels[i]);
        var ok := Run(q);
        if !ok {
          return Some(CypherSyntaxError(q));
        }
        i := i + 1;
      }
      return None;
    }

    /** `delete_graph()`: one statement removing every node and its edges. */
    method DeleteGraph() returns (failure: Option<PyError>)
      modifies this
      ensures sent == old(sent) + [DeleteAll]
      ensures failure.Some? <==> rejects(DeleteAll)
    {
      var ok := Run(DeleteAll);
      failure := if ok then None else Some(CypherSyntaxError(DeleteAll));
    }

    /** `import_nodes(graph, nlab)`: one statement per node in node order;
      * the string attributes are escaped in the graph as the statement is
      * built; a rejected node is noted and the loop goes on; a node without
      * the label attribute raises `KeyError`, after the nodes before it. */
    method ImportNodes(graph: PropertyGraph, nlab: string) returns (r: Result<seq<string>, PyError>)
      requires graph.Valid()
      modifies this, graph
      ensures graph.Valid()
      ensures graph.State() == PartlyMappedGraph(old(graph.State()), FirstUnlabelled(old(graph.State()), nlab), EscapedAttrs)
      ensures sent == old(sent) + NodeStatements(old(graph.State()), nlab, FirstUnlabelled(old(graph.State()), nlab))
      ensures FirstUnlabelled(old(graph.State()), nlab) < |old(graph.nodes.keys)| ==> r == Failure(KeyError(nlab))
      ensures FirstUnlabelled(old(graph.State()), nlab) == |old(graph.nodes.keys)| ==>
                r == Success(RejectedNodes(old(graph.nodes.keys), NodeStatements(old(graph.State()), nlab, |old(graph.nodes.keys)|), rejects))
    {
      ghost var g0 := graph.State();
      ghost var s0 := sent;
      ghost var stop := FirstUnlabelled(g0, nlab);
      ghost var stmts: seq<string> := [];
      var keys := graph.nodes.keys;
      var error: seq<string> := [];
      PartlyMappedGraphNone(g0, EscapedAttrs);
      assert keys[..0] == [];
      assert sent == s0 + stmts;
      var i := 0;
      while i < |keys|
        invariant 0 <= i <= stop
        invariant graph.Valid()
        invariant graph.State() == PartlyMappedGraph(g0, i, EscapedAttrs)
        invariant stmts == NodeStatements(g0, nlab, i)
        invariant sent == s0 + stmts
        invariant error == RejectedNodes(keys[..i], stmts, rejects)
      {
        var n := keys[i];
        PartlyMappedGraphNext(g0, i, EscapedAttrs);
        if nlab !in graph.nodes.vals[n].vals {
          assert i == stop;
          return Failure(KeyError(nlab));
        }
        assert i < stop;
        ghost var q := NodeStatement(n, g0.nodes.vals[n], nlab);
        var ok := ImportNode(graph, nlab, g0, i, n);
        NodeStatementsStep(g0, nlab, i);
        RejectedNodesStep(keys, stmts, i, q, rejects);
        AppendAssoc(s0, stmts, [q]);
        stmts := stmts + [q];
        if !ok {
          error := error + [n];
        }
        i := i + 1;
      }
      assert keys[..i] == keys;
      assert i == stop;
      return Success(error);
    }

    /** One pass of the node loop: the node's statement is built, its string
      * attributes are escaped in the graph, and the statement is sent. */
    method ImportNode(graph: PropertyGraph, nlab: string, ghost g0: Graph, i: nat, n: string) returns (ok: bool)
      requires WellFormed(g0) && i < |g0.nodes.keys| && n == g0.nodes.keys[i]
      requires graph.Valid() && graph.State() == PartlyMappedGraph(g0, i, EscapedAttrs)
      requires n in g0.nodes.vals && nlab in g0.nodes.vals[n].vals
      modifies this, graph
      ensures graph.Valid() && graph.State() == PartlyMappedGraph(g0, i + 1, EscapedAttrs)
      ensures sent == old(sent) + [NodeStatement(n, g0.nodes.vals[n], nlab)]
      ensures ok <==> !rejects(NodeStatement(n, g0.nodes.vals[n], nlab))
    {
      PartlyMappedGraphNext(g0, i, EscapedAttrs);
      PartlyMappedGraphStep(g0, i, EscapedAttrs);
      var q := NodeQuery(graph, n, nlab);
      ok := Run(q);
    }

    /** `import_edges(graph, nlab, elab)`: one statement per edge; a missing
      * label raises `KeyError` and a rejected statement raises the syntax
      * error, ending the import there. */
    method ImportEdges(graph: PropertyGraph, nlab: string, elab: string) returns (failure: Option<PyError>)
      requires graph.Valid()
      modifies this
      ensures var run := RunUntilError(EdgeStatements(graph.State(), EdgeOrder(graph.State()), nlab, elab), rejects);
              sent == old(sent) + run.0 && failure == run.1
    {
      var g := graph.State();
      var es := EdgeOrder(g);
      ghost var rs := EdgeStatements(g, es, nlab, elab);
      ghost var s0 := sent;
      ghost var out: seq<string> := [];
      assert rs[..0] == [];
      assert sent == s0 + out;
      var i := 0;
      while i < |es|
        invariant 0 <= i <= |es|
        invariant sent == s0 + out
        invariant RunUntilError(rs[..i], rejects) == (out, None)
      {
        RunNext(rs, i, rejects);
        var stmt := EdgeQuery(g, es[i], nlab, elab);
        if stmt.Failure? {
          RunStop(rs, i + 1, rejects);
          return Some(stmt.error);
        }
        var ok := Run(stmt.value);
        AppendAssoc(s0, out, [stmt.value]);
        out := out + [stmt.value];
        if !ok {
          RunStop(rs, i + 1, rejects);
          return Some(CypherSyntaxError(stmt.value));
        }
        i := i + 1;
      }
      assert rs[..i] == rs;
      return None;
    }
  }

  /** The inner loop of `import_nodes` for node `n`: each attribute in turn
    * is rendered, and a string one is escaped in place first. */
  method NodeQuery(graph: PropertyGraph, n: string, nlab: string) returns (query: string)
    requires graph.Valid() && n in graph.nodes.vals && nlab in graph.nodes.vals[n].vals
    modifies graph
    ensures graph.Valid()
    ensures graph.edges == old(graph.edges) && graph.nodes.keys == old(graph.nodes.keys)
    ensures graph.nodes.vals == old(graph.nodes.vals)[n := EscapedAttrs(old(graph.nodes.vals[n]))]
    ensures query == NodeStatement(n, old(graph.nodes.vals[n]), nlab)
  {
    ghost var a0 := graph.nodes.vals[n];
    ghost var before := graph.nodes.vals;
    var names := graph.nodes.vals[n].keys;
    query := NodeHead(n, graph.nodes.vals[n].vals[nlab]);
    assert a0.Valid() && names == a0.keys;
    PartlyMappedNone(a0, Escaped);
    assert before[n := a0] == before;
    assert names[..0] == [];
    var j := 0;
    while j < |names|
      invariant 0 <= j <= |names|
      invariant graph.Valid()
      invariant graph.edges == old(graph.edges) && graph.nodes.keys == old(graph.nodes.keys)
      invariant graph.nodes.vals == before[n := PartlyMapped(a0, j, Escaped)]
      invariant query == NodeHead(n, a0.vals[nlab]) + Props(EscapedAttrs(a0), names[..j])
    {
      WordCleaning.UpdateTwice(before, n, PartlyMapped(a0, j, Escaped), PartlyMapped(a0, j + 1, Escaped));
      var piece := EscapeAttr(graph, n, a0, j);
      PropsStep(EscapedAttrs(a0), names, j);
      assert piece == Render(names[j], EscapedAttrs(a0).vals[names[j]]);
      AppendAssoc(NodeHead(n, a0.vals[nlab]), Props(EscapedAttrs(a0), names[..j]), piece);
      query := query + piece;
      j := j + 1;
    }
    PartlyMappedAll(a0, Escaped);
    assert names[..j] == names;
    query := query + "})";
  }

  /** One pass of the inner loop of `import_nodes`: a missing value is
    * skipped; a string is escaped, written back and quoted; anything else is
    * written as it prints. */
  method EscapeAttr(graph: PropertyGraph, n: string, ghost a0: Attrs, j: nat) returns (piece: string)
    requires graph.Valid() && n in graph.nodes.vals && a0.Valid() && j < |a0.keys|
    requires graph.nodes.vals[n] == PartlyMapped(a0, j, Escaped)
    modifies graph
    ensures graph.Valid()
    ensures graph.edges == old(graph.edges) && graph.nodes.keys == old(graph.nodes.keys)
    ensures graph.nodes.vals == old(graph.nodes.vals)[n := PartlyMapped(a0, j + 1, Escaped)]
    ensures a0.keys[j] in a0.vals && piece == Render(a0.keys[j], Escaped(a0.vals[a0.keys[j]]))
  {
    var k := graph.nodes.vals[n].keys[j];
    PartlyMappedNext(a0, j, Escaped);
    var v := graph.nodes.vals[n].vals[k];
    if v.Missing? {
      MappedStepWith(a0, j, Escaped, v);
      PutCurrent(PartlyMapped(a0, j, Escaped), k);
      return "";
    }
    if v.Str? {
      var esc := EscapeQuotes(v.s);
      MappedStepWith(a0, j, Escaped, Str(esc));
      graph.SetAttr(n, k, Str(esc));
      piece := Render(k, Str(esc));
    } else {
      MappedStepWith(a0, j, Escaped, v);
      PutCurrent(PartlyMapped(a0, j, Escaped), k);
      piece := Render(k, v);
    }
  }

  /** `PartlyMappedStep` with the rewritten value named. */
  lemma MappedStepWith(a: Attrs, m: nat, f: Value -> Value, w: Value)
    requires a.Valid() && m < |a.keys| && a.keys[m] in a.vals && w == f(a.vals[a.keys[m]])
    ensures PartlyMapped(a, m, f).Put(a.keys[m], w) == PartlyMapped(a, m + 1, f)
  {
    PartlyMappedStep(a, m, f);
  }

  /** The statement of one edge as `import_edges` builds it, attribute by
    * attribute. */
  method EdgeQuery(g: Graph, e: Edge, nlab: string, elab: string) returns (r: Result<string, PyError>)
    requires WellFormed(g) && e in g.edges
    ensures r == EdgeStatement(g, e, nlab, elab)
  {
    var s := g.nodes.vals[e.src];
    var d := g.nodes.vals[e.dst];
    if nlab !in s.vals || nlab !in d.vals {
      return Failure(KeyError(nlab));
    }
    if elab !in e.attrs.vals {
      return Failure(KeyError(elab));
    }
    var props := PropsText(e.attrs);
    return Success(EdgeHead(e.src, s.vals[nlab], e.dst, d.vals[nlab], e.attrs.vals[elab]) + props + "}] -> (b)");
  }

  /** The attribute loop of `import_edges`: each attribute in turn, missing
    * ones skipped, strings quoted as they are. */
  method PropsText(a: Attrs) returns (text: string)
    requires a.Valid()
    ensures text == Props(a, a.keys)
  {
    var names := a.keys;
    text := "";
    assert names[..0] == [];
    var j := 0;
    while j < |names|
      invariant 0 <= j <= |names|
      invariant text == Props(a, names[..j])
    {
      PropsStep(a, names, j);
      text := text + Render(names[j], a.vals[names[j]]);
      j := j + 1;
    }
    assert names[..j] == names;
  }

  /** The next attribute of a node being rewritten still has its old value. */
  lemma PartlyMappedNext(a: Attrs, m: nat, f: Value -> Value)
    requires a.Valid() && m < |a.keys|
    ensures a.keys[m] in a.vals && a.keys[m] in PartlyMapped(a, m, f).vals
    ensures PartlyMapped(a, m, f).vals[a.keys[m]] == a.vals[a.keys[m]]
  {
    assert a.keys[m] !in a.keys[..m];
  }

  lemma PutCurrent(d: Attrs, k: string)
    requires d.Valid() && k in d.vals
    ensures d.Put(k, d.vals[k]) == d
  {
    assert d.vals[k := d.vals[k]] == d.vals;
  }

  lemma PropsStep(a: Attrs, names: seq<string>, j: nat)
    requires j < |names| && names[j] in a.vals
    ensures Props(a, names[..j + 1]) == Props(a, names[..j]) + Render(names[j], a.vals[names[j]])
  {
    assert names[..j + 1][..j] == names[..j];
  }

  /** The next node of a graph being rewritten still has its old attributes. */
  lemma PartlyMappedGraphNext(g: Graph, m: nat, h: Attrs -> Attrs)
    requires WellFormed(g) && m < |g.nodes.keys|
    ensures g.nodes.keys[m] in g.nodes.vals && g.nodes.keys[m] in PartlyMappedGraph(g, m, h).nodes.vals
    ensures PartlyMappedGraph(g, m, h).nodes.vals[g.nodes.keys[m]] == g.nodes.vals[g.nodes.keys[m]]
  {
    assert g.nodes.keys[m] !in g.nodes.keys[..m];
  }

  lemma RejectedNodesStep(ns: seq<string>, stmts: seq<string>, i: nat, q: string, rejects: string -> bool)
    requires i < |ns| && |stmts| == i
    ensures RejectedNodes(ns[..i + 1], stmts + [q], rejects) ==
            RejectedNodes(ns[..i], stmts, rejects) + (if rejects(q) then [ns[i]] else [])
  {
    assert ns[..i + 1][..i] == ns[..i];
    assert (stmts + [q])[..i] == stmts;
  }

  lemma NodeStatementsStep(g: Graph, nlab: string, i: nat)
    requires WellFormed(g) && i < |g.nodes.keys|
    requires forall j :: 0 <= j <= i ==> nlab in g.nodes.vals[g.nodes.keys[j]].vals
    ensures NodeStatements(g, nlab, i + 1) == NodeStatements(g, nlab, i) + [NodeStatement(g.nodes.keys[i], g.nodes.vals[g.nodes.keys[i]], nlab)]
  {
  }

  lemma RunNext(rs: seq<Result<string, PyError>>, i: nat, rejects: string -> bool)
    requires i < |rs| && RunUntilError(rs[..i], rejects).1.None?
    ensures var before := RunUntilError(rs[..i], rejects).0;
            RunUntilError(rs[..i + 1], rejects) ==
              match rs[i]
              case Failure(err) => (before, Some(err))
              case Success(q) => (before + [q], if rejects(q) then Some(CypherSyntaxError(q)) else None)
  {
    assert rs[..i + 1][..i] == rs[..i];
  }

  /** Once the statements up to `m` ended the run, the later ones add nothing. */
  lemma {:induction false} RunStop(rs: seq<Result<string, PyError>>, m: nat, rejects: string -> bool)
    requires m <= |rs| && RunUntilError(rs[..m], rejects).1.Some?
    ensures RunUntilError(rs, rejects) == RunUntilError(rs[..m], rejects)
    decreases |rs| - m
  {
    if m < |rs| {
      var k := |rs| - 1;
      assert rs[..k][..m] == rs[..m];
      RunStop(rs[..k], m, rejects);
    } else {
      assert rs[..m] == rs;
    }
  }
}
