// What the Wikidata graph builder promises about the graph it builds: the
// attributes of an entity row's node, the nodes and edges of a link column,
// parallel edges on a rerun, the key invariant the cleanup relies on, and the
// truncated ids of the cleanup as written.
module WikidataFacts {
  import opened Wrappers
  import opened Text
  import opened Values
  import opened OrderedDicts
  import opened Graphs
  import opened WikidataGraph

  // ---- Entity rows -----------------------------------------------------------

  /** The attribute names one entity row writes do not collide: the copied
    * columns differ from each other and from `id`, `nlabel` and `source`, and
    * the lower-cased multi-valued columns differ from all of those and from
    * each other. */
  predicate NamesApart(scalars: seq<Column>, multi: seq<string>)
  {
    (forall i :: 0 <= i < |scalars| ==> scalars[i].0 != "id" && scalars[i].0 != "nlabel" && scalars[i].0 != "source") &&
    (forall i, j :: 0 <= i < j < |scalars| ==> scalars[i].0 != scalars[j].0) &&
    (forall k :: 0 <= k < |multi| ==>
       Lower(multi[k]) != "id" && Lower(multi[k]) != "nlabel" && Lower(multi[k]) != "source" &&
       forall i :: 0 <= i < |scalars| ==> scalars[i].0 != Lower(multi[k])) &&
    (forall k, l :: 0 <= k < l < |multi| ==> Lower(multi[k]) != Lower(multi[l]))
  }

  /** What a multi-valued column leaves in its attribute once the row went
    * through: a string becomes its `;`-split list; any other cell is skipped
    * by the split and, under the float rule, stored unchanged, and otherwise
    * the attribute stays as it was. */
  function MultiOutcome(g: Graph, key: string, row: Row, m: string, rule: SkipRule): Option<Value>
    requires m in row
  {
    if row[m].Str? then Some(List(Split(row[m].s, ';')))
    else if rule == SkipFloats then Some(row[m])
    else Attr(g, key, Lower(m))
  }

  lemma FirstUpsertValues(index: string, nlabel: string, row: Row, scalars: seq<Column>, sc: seq<(string, Value)>)
    requires |sc| == |scalars| && forall i :: 0 <= i < |scalars| ==> scalars[i].1 in row && sc[i] == (scalars[i].0, row[scalars[i].1])
    requires forall i :: 0 <= i < |scalars| ==> scalars[i].0 != "id" && scalars[i].0 != "nlabel" && scalars[i].0 != "source"
    requires forall i, j :: 0 <= i < j < |scalars| ==> scalars[i].0 != scalars[j].0
    ensures var d := FromPairs(EntityPairs(index, nlabel, sc));
            "id" in d.vals && d.vals["id"] == Str(index) &&
            "nlabel" in d.vals && d.vals["nlabel"] == Str(nlabel) &&
            "source" in d.vals && d.vals["source"] == Str(Source) &&
            forall i :: 0 <= i < |scalars| ==> scalars[i].0 in d.vals && d.vals[scalars[i].0] == row[scalars[i].1]
  {
    var pairs := EntityPairs(index, nlabel, sc);
    FixedInPairs(index, nlabel, sc);
    forall i | 0 <= i < |scalars|
      ensures scalars[i].0 in FromPairs(pairs).vals && FromPairs(pairs).vals[scalars[i].0] == row[scalars[i].1]
    {
      ScalarInPairs(index, nlabel, scalars[i].0, row[scalars[i].1], scalars, sc, i);
    }
  }

  lemma FixedInPairs(index: string, nlabel: string, sc: seq<(string, Value)>)
    requires forall j :: 0 <= j < |sc| ==> sc[j].0 != "id" && sc[j].0 != "nlabel" && sc[j].0 != "source"
    ensures var d := FromPairs(EntityPairs(index, nlabel, sc));
            "id" in d.vals && d.vals["id"] == Str(index) &&
            "nlabel" in d.vals && d.vals["nlabel"] == Str(nlabel) &&
            "source" in d.vals && d.vals["source"] == Str(Source)
  {
    var pairs := EntityPairs(index, nlabel, sc);
    OnlyAt(pairs, 0, index, nlabel, sc);
    OnlyAt(pairs, 1, index, nlabel, sc);
    OnlyAt(pairs, |pairs| - 1, index, nlabel, sc);
  }

  /** The fixed attributes of an entity node occur once among its pairs. */
  lemma OnlyAt(pairs: seq<(string, Value)>, i: nat, index: string, nlabel: string, sc: seq<(string, Value)>)
    requires pairs == EntityPairs(index, nlabel, sc)
    requires forall j :: 0 <= j < |sc| ==> sc[j].0 != "id" && sc[j].0 != "nlabel" && sc[j].0 != "source"
    requires i == 0 || i == 1 || i == |pairs| - 1
    ensures pairs[i].0 in FromPairs(pairs).vals && FromPairs(pairs).vals[pairs[i].0] == pairs[i].1
  {
    forall j | 0 <= j < |pairs| && pairs[j].0 == pairs[i].0
      ensures pairs[j].1 == pairs[i].1
    {
    }
    FromPairsUniform(pairs, pairs[i].0, pairs[i].1);
  }

  lemma ScalarInPairs(index: string, nlabel: string, a: string, v: Value, scalars: seq<Column>, sc: seq<(string, Value)>, i: nat)
    requires |sc| == |scalars| && i < |sc| && sc[i] == (a, v)
    requires forall j :: 0 <= j < |sc| ==> sc[j].0 == scalars[j].0
    requires a != "id" && a != "nlabel" && a != "source"
    requires forall j :: 0 <= j < |scalars| && j != i ==> scalars[j].0 != a
    ensures a in FromPairs(EntityPairs(index, nlabel, sc)).vals && FromPairs(EntityPairs(index, nlabel, sc)).vals[a] == v
  {
    var pairs := EntityPairs(index, nlabel, sc);
    assert pairs[i + 2] == sc[i];
    forall j | 0 <= j < |pairs| && pairs[j].0 == a
      ensures pairs[j].1 == v
    {
      if 2 <= j < |sc| + 2 {
        assert pairs[j] == sc[j - 2];
      }
    }
    FromPairsUniform(pairs, a, v);
  }

  /** The first upsert names only `id`, `nlabel`, `source` and the copied columns. */
  lemma FirstUpsertNames(index: string, nlabel: string, scalars: seq<Column>, sc: seq<(string, Value)>)
    requires |sc| == |scalars| && forall i :: 0 <= i < |scalars| ==> sc[i].0 == scalars[i].0
    ensures forall a :: a in FromPairs(EntityPairs(index, nlabel, sc)).vals ==>
              a == "id" || a == "nlabel" || a == "source" || exists i :: 0 <= i < |scalars| && scalars[i].0 == a
  {
    var pairs := EntityPairs(index, nlabel, sc);
    assert forall j :: 2 <= j < |sc| + 2 ==> pairs[j] == sc[j - 2];
    forall a | a in FromPairs(pairs).vals
      ensures a == "id" || a == "nlabel" || a == "source" || exists i :: 0 <= i < |scalars| && scalars[i].0 == a
    {
      var j :| 0 <= j < |pairs| && pairs[j].0 == a;
      if 2 <= j < |sc| + 2 {
        assert scalars[j - 2].0 == a;
      }
    }
  }

  /** The split upsert names only lower-cased multi-valued columns. */
  lemma SplitNames(row: Row, multi: seq<string>, rule: SkipRule, a: string)
    requires SplitColumns(row, multi, rule).Success?
    requires a in FromPairs(SplitColumns(row, multi, rule).value).vals
    ensures exists k :: 0 <= k < |multi| && Lower(multi[k]) == a
  {
    var r := SplitColumns(row, multi, rule).value;
    var j :| 0 <= j < |r| && r[j].0 == a;
    var k := SplitColumnsSource(row, multi, rule, j);
  }

  /** The float upsert names only lower-cased multi-valued columns. */
  lemma FloatNames(row: Row, multi: seq<string>, a: string)
    requires a in FromPairs(FloatColumns(row, multi)).vals
    ensures exists k :: 0 <= k < |multi| && Lower(multi[k]) == a
  {
    var r := FloatColumns(row, multi);
    var j :| 0 <= j < |r| && r[j].0 == a;
    var k := FloatColumnsSource(row, multi, j);
  }

  /** With distinct lower-cased names, the split upsert gives column `k` the
    * split list, and only when its cell is not skipped. */
  lemma SplitValueOf(row: Row, multi: seq<string>, rule: SkipRule, k: nat)
    requires SplitColumns(row, multi, rule).Success? && k < |multi|
    requires forall k1, l :: 0 <= k1 < l < |multi| ==> Lower(multi[k1]) != Lower(multi[l])
    ensures var d := FromPairs(SplitColumns(row, multi, rule).value);
            (Lower(multi[k]) in d.vals <==> !Skipped(rule, row[multi[k]])) &&
            (Lower(multi[k]) in d.vals ==> d.vals[Lower(multi[k])] == List(Split(row[multi[k]].s, ';')))
  {
    var r := SplitColumns(row, multi, rule).value;
    var a := Lower(multi[k]);
    var d := FromPairs(r);
    if a in d.vals {
      var j :| 0 <= j < |r| && r[j].0 == a;
      var i := SplitColumnsSource(row, multi, rule, j);
      assert i == k;
      forall j' | 0 <= j' < |r| && r[j'].0 == a
        ensures r[j'].1 == List(Split(row[multi[k]].s, ';'))
      {
        var i' := SplitColumnsSource(row, multi, rule, j');
        assert i' == k;
      }
      FromPairsUniform(r, a, List(Split(row[multi[k]].s, ';')));
    }
  }

  /** With distinct lower-cased names, the float upsert gives column `k` its
    * cell unchanged, and only when that cell is a float. */
  lemma FloatValueOf(row: Row, multi: seq<string>, k: nat)
    requires k < |multi| && multi[k] in row
    requires forall k1, l :: 0 <= k1 < l < |multi| ==> Lower(multi[k1]) != Lower(multi[l])
    ensures var d := FromPairs(FloatColumns(row, multi));
            (Lower(multi[k]) in d.vals <==> IsFloat(row[multi[k]])) &&
            (Lower(multi[k]) in d.vals ==> d.vals[Lower(multi[k])] == row[multi[k]])
  {
    var r := FloatColumns(row, multi);
    var a := Lower(multi[k]);
    var d := FromPairs(r);
    if a in d.vals {
      var j :| 0 <= j < |r| && r[j].0 == a;
      var i := FloatColumnsSource(row, multi, j);
      assert i == k;
      forall j' | 0 <= j' < |r| && r[j'].0 == a
        ensures r[j'].1 == row[multi[k]]
      {
        var i' := FloatColumnsSource(row, multi, j');
        assert i' == k;
      }
      FromPairsUniform(r, a, row[multi[k]]);
    }
  }

  /** The upserts after the first one in an entity row (empty when the split raises). */
  function LaterOps(key: string, row: Row, multi: seq<string>, rule: SkipRule): seq<GraphOp>
  {
    match SplitColumns(row, multi, rule)
    case Failure(_) => []
    case Success(split) =>
      if rule == SkipFloats then [AddNodeOp(key, split), AddNodeOp(key, FloatColumns(row, multi))]
      else [AddNodeOp(key, split)]
  }

  lemma EntityStepShape(index: string, nlabel: string, row: Row, scalars: seq<Column>, multi: seq<string>, rule: SkipRule)
    requires Scalars(row, scalars).Success?
    ensures var s := EntityStep(index, nlabel, row, scalars, multi, rule);
            s.ops == [AddNodeOp(NodeKey(nlabel, index), EntityPairs(index, nlabel, Scalars(row, scalars).value))]
                     + LaterOps(NodeKey(nlabel, index), row, multi, rule) &&
            (s.failure.None? <==> SplitColumns(row, multi, rule).Success?)
  {
  }

  /** A name that is no lower-cased multi-valued column is not written by the later upserts. */
  lemma LaterOpsSkip(key: string, row: Row, multi: seq<string>, rule: SkipRule, a: string)
    requires forall k :: 0 <= k < |multi| ==> Lower(multi[k]) != a
    ensures forall op :: op in LaterOps(key, row, multi, rule) ==> !Sets(op, key, a)
  {
    if SplitColumns(row, multi, rule).Success? {
      if a in FromPairs(SplitColumns(row, multi, rule).value).vals {
        SplitNames(row, multi, rule, a);
      }
      if a in FromPairs(FloatColumns(row, multi)).vals {
        FloatNames(row, multi, a);
      }
    }
  }

  /** One entity row of the organization, person, product or generic
    * expansion builders, once every copied column exists: the node under
    * `WD_<nlabel[:3]>_<index>` carries `id`, `nlabel`, `source` and the
    * copied columns; the row raises exactly when a multi-valued column is
    * missing or holds a non-string the rule does not skip; and otherwise each
    * multi-valued column ends as `MultiOutcome` says. */
  lemma {:induction false} EntityRowEffect(g: Graph, index: string, nlabel: string, row: Row, scalars: seq<Column>,
                                           multi: seq<string>, rule: SkipRule)
    requires WellFormed(g) && NamesApart(scalars, multi)
    requires forall i :: 0 <= i < |scalars| ==> scalars[i].1 in row
    ensures var s := EntityStep(index, nlabel, row, scalars, multi, rule);
            var h := ApplyOps(g, s.ops);
            var key := NodeKey(nlabel, index);
            (s.failure.None? <==>
               forall k :: 0 <= k < |multi| ==> multi[k] in row && (Skipped(rule, row[multi[k]]) || row[multi[k]].Str?)) &&
            Attr(h, key, "id") == Some(Str(index)) && Attr(h, key, "nlabel") == Some(Str(nlabel)) &&
            Attr(h, key, "source") == Some(Str(Source)) &&
            (forall i :: 0 <= i < |scalars| ==> Attr(h, key, scalars[i].0) == Some(row[scalars[i].1])) &&
            (s.failure.None? ==> forall k :: 0 <= k < |multi| ==>
               multi[k] in row && Attr(h, key, Lower(multi[k])) == MultiOutcome(g, key, row, multi[k], rule))
  {
    var s := EntityStep(index, nlabel, row, scalars, multi, rule);
    var key := NodeKey(nlabel, index);
    var sc := Scalars(row, scalars).value;
    var first := AddNodeOp(key, EntityPairs(index, nlabel, sc));
    var rest := LaterOps(key, row, multi, rule);
    EntityStepShape(index, nlabel, row, scalars, multi, rule);
    var h1 := ApplyOp(g, first);
    assert ApplyOps(g, s.ops) == ApplyOps(h1, rest) by {
      assert s.ops == [first] + rest;
      ApplyOpsAppend(g, [first], rest);
      assert ApplyOps(g, [first]) == ApplyOps(h1, []);
    }
    FirstUpsertValues(index, nlabel, row, scalars, sc);
    FirstUpsertNames(index, nlabel, scalars, sc);
    // The fixed and copied attributes, written by the first upsert only.
    forall a | a == "id" || a == "nlabel" || a == "source" || exists i :: 0 <= i < |scalars| && scalars[i].0 == a
      ensures Attr(ApplyOps(h1, rest), key, a) == Attr(h1, key, a)
    {
      LaterOpsSkip(key, row, multi, rule, a);
      ApplyOpsAttrUntouched(h1, rest, key, a);
    }
    OpAttr(g, first, key, "id");
    OpAttr(g, first, key, "nlabel");
    OpAttr(g, first, key, "source");
    forall i | 0 <= i < |scalars|
      ensures Attr(ApplyOps(h1, rest), key, scalars[i].0) == Some(row[scalars[i].1])
    {
      OpAttr(g, first, key, scalars[i].0);
    }
    if s.failure.None? {
      forall k | 0 <= k < |multi|
        ensures multi[k] in row && Attr(ApplyOps(h1, rest), key, Lower(multi[k])) == MultiOutcome(g, key, row, multi[k], rule)
      {
        MultiColumnEffect(g, key, row, multi, rule, k, first, index, nlabel, scalars, sc);
      }
    }
  }

  lemma MultiColumnEffect(g: Graph, key: string, row: Row, multi: seq<string>, rule: SkipRule, k: nat,
                          first: GraphOp, index: string, nlabel: string, scalars: seq<Column>, sc: seq<(string, Value)>)
    requires WellFormed(g) && NamesApart(scalars, multi) && k < |multi|
    requires |sc| == |scalars| && forall i :: 0 <= i < |scalars| ==> sc[i].0 == scalars[i].0
    requires first == AddNodeOp(key, EntityPairs(index, nlabel, sc))
    requires SplitColumns(row, multi, rule).Success?
    ensures multi[k] in row
    ensures Attr(ApplyOps(ApplyOp(g, first), LaterOps(key, row, multi, rule)), key, Lower(multi[k])) ==
            MultiOutcome(g, key, row, multi[k], rule)
  {
    var a := Lower(multi[k]);
    var h1 := ApplyOp(g, first);
    FirstUpsertNames(index, nlabel, scalars, sc);
    OpAttr(g, first, key, a);
    LaterOpsOutcome(h1, key, row, multi, rule, k);
  }

  /** The later upserts of a row that did not raise, on one multi-valued column. */
  lemma LaterOpsOutcome(h1: Graph, key: string, row: Row, multi: seq<string>, rule: SkipRule, k: nat)
    requires WellFormed(h1) && k < |multi| && SplitColumns(row, multi, rule).Success?
    requires forall k1, l :: 0 <= k1 < l < |multi| ==> Lower(multi[k1]) != Lower(multi[l])
    ensures multi[k] in row
    ensures Attr(ApplyOps(h1, LaterOps(key, row, multi, rule)), key, Lower(multi[k])) ==
            if row[multi[k]].Str? then Some(List(Split(row[multi[k]].s, ';')))
            else if rule == SkipFloats then Some(row[multi[k]])
            else Attr(h1, key, Lower(multi[k]))
  {
    var a := Lower(multi[k]);
    var rest := LaterOps(key, row, multi, rule);
    SplitValueOf(row, multi, rule, k);
    FloatValueOf(row, multi, k);
    var split := SplitColumns(row, multi, rule).value;
    var opS := AddNodeOp(key, split);
    var opF := AddNodeOp(key, FloatColumns(row, multi));
    var h2 := ApplyOp(h1, opS);
    OpAttr(h1, opS, key, a);
    if rule == SkipFloats {
      assert rest == [opS, opF];
      assert ApplyOps(h1, rest) == ApplyOps(h2, [opF]) == ApplyOp(h2, opF);
      OpAttr(h2, opF, key, a);
    } else {
      assert rest == [opS];
      assert ApplyOps(h1, rest) == ApplyOps(h2, []);
    }
  }

  /** The lower-case column lists are their own lower-casing. */
  lemma LowerCaseColumns(cols: seq<string>)
    requires forall k :: 0 <= k < |cols| ==> NoUpper(cols[k])
    ensures forall k :: 0 <= k < |cols| ==> Lower(cols[k]) == cols[k]
  {
    forall k | 0 <= k < |cols|
      ensures Lower(cols[k]) == cols[k]
    {
      LowerOfNoUpper(cols[k]);
    }
  }

  /** Distinct lower-case names, none of them `id`, `nlabel` or `source`, are apart. */
  lemma NamesApartOf(names: seq<string>, multi: seq<string>)
    requires forall k :: 0 <= k < |multi| ==> NoUpper(multi[k])
    requires forall i :: 0 <= i < |names| ==> names[i] != "id" && names[i] != "nlabel" && names[i] != "source"
    requires forall k :: 0 <= k < |multi| ==> multi[k] != "id" && multi[k] != "nlabel" && multi[k] != "source"
    requires forall i, j :: 0 <= i < j < |names| ==> names[i] != names[j]
    requires forall k, l :: 0 <= k < l < |multi| ==> multi[k] != multi[l]
    requires forall i, k :: 0 <= i < |names| && 0 <= k < |multi| ==> names[i] != multi[k]
    ensures NamesApart(SameNames(names), multi)
  {
    var scalars := SameNames(names);
    assert forall i :: 0 <= i < |scalars| ==> scalars[i].0 == names[i];
    NamesApartCols(scalars, multi);
  }

  /** `WD_<nlabel[:3]>_<index>` for the labels the builders use. */
  lemma KeyOfLabel(nlabel: string, prefix: string, index: string)
    requires |nlabel| >= 3 && nlabel[..3] == prefix
    ensures NodeKey(nlabel, index) == "WD_" + prefix + "_" + index
  {
  }

  /** Every entity table of the builder writes names that do not collide, so
    * `EntityRowEffect` applies to organization, person, product and generic
    * expansion rows alike. */
  lemma CompanyTableApart()
    ensures NamesApart(SameNames(CompanyScalars), CompanyMulti)
  {
    CompanyScalarsApart();
    CompanyMultiApart();
    CompanyColumnsApart();
    NamesApartOf(CompanyScalars, CompanyMulti);
  }

  lemma CompanyScalarsApart()
    ensures forall i :: 0 <= i < |CompanyScalars| ==>
              CompanyScalars[i] != "id" && CompanyScalars[i] != "nlabel" && CompanyScalars[i] != "source"
    ensures forall i, j :: 0 <= i < j < |CompanyScalars| ==> CompanyScalars[i] != CompanyScalars[j]
  {
  }

  lemma CompanyMultiApart()
    ensures forall k :: 0 <= k < |CompanyMulti| ==> NoUpper(CompanyMulti[k])
    ensures forall k :: 0 <= k < |CompanyMulti| ==>
              CompanyMulti[k] != "id" && CompanyMulti[k] != "nlabel" && CompanyMulti[k] != "source"
    ensures forall k, l :: 0 <= k < l < |CompanyMulti| ==> CompanyMulti[k] != CompanyMulti[l]
  {
  }

  lemma CompanyColumnsApart()
    ensures forall i, k :: 0 <= i < |CompanyScalars| && 0 <= k < |CompanyMulti| ==> CompanyScalars[i] != CompanyMulti[k]
  {
  }

  lemma PersonTableApart()
    ensures NamesApart(SameNames(PersonScalars), PersonMulti)
  {
    NamesApartOf(PersonScalars, PersonMulti);
  }

  lemma ProductTableApart()
    ensures NamesApart(SameNames(ProductScalars), ExpandMulti)
  {
    NamesApartOf(ProductScalars, ExpandMulti);
  }

  lemma ExpandTableApart()
    ensures NamesApart(ExpandScalars, ExpandMulti)
  {
    NamesApartCols(ExpandScalars, ExpandMulti);
  }

  lemma NamesApartCols(scalars: seq<Column>, multi: seq<string>)
    requires forall k :: 0 <= k < |multi| ==> NoUpper(multi[k])
    requires forall i :: 0 <= i < |scalars| ==> scalars[i].0 != "id" && scalars[i].0 != "nlabel" && scalars[i].0 != "source"
    requires forall k :: 0 <= k < |multi| ==> multi[k] != "id" && multi[k] != "nlabel" && multi[k] != "source"
    requires forall i, j :: 0 <= i < j < |scalars| ==> scalars[i].0 != scalars[j].0
    requires forall k, l :: 0 <= k < l < |multi| ==> multi[k] != multi[l]
    requires forall i, k :: 0 <= i < |scalars| && 0 <= k < |multi| ==> scalars[i].0 != multi[k]
    ensures NamesApart(scalars, multi)
  {
    LowerCaseColumns(multi);
  }

  // ---- Link columns ----------------------------------------------------------

  /** The edges a link column should add, one per `;` item, in item order:
    * from the row's own node to the item's node, labelled with the column
    * name in upper case. */
  function LinkEdges(source: string, index: string, key: string, tlabel: string, items: seq<string>): (r: seq<Edge>)
    ensures |r| == |items|
  {
    seq(|items|, j requires 0 <= j < |items| =>
      Edge(NodeKey(source, index), NodeKey(tlabel, items[j]), FromPairs([("elabel", Str(Upper(key))), ("source", Str(Source))])))
  }

  lemma {:induction false} ItemOpsEdges(source: string, index: string, key: string, tlabel: string, items: seq<string>)
    ensures EdgesOf(ItemOps(source, index, key, tlabel, items)) == LinkEdges(source, index, key, tlabel, items)
    decreases |items|
  {
    if |items| > 0 {
      var ops := ItemOps(source, index, key, tlabel, items);
      var tail := ItemOps(source, index, key, tlabel, items[1..]);
      assert ops == [ops[0], ops[1]] + tail;
      EdgesOfAppend([ops[0], ops[1]], tail);
      ItemOpsHeadEdges(source, index, key, tlabel, items);
      ItemOpsEdges(source, index, key, tlabel, items[1..]);
      LinkEdgesCons(source, index, key, tlabel, items);
    } else {
      assert ItemOps(source, index, key, tlabel, items) == [];
    }
  }

  /** The first item's node and edge calls add exactly the first link edge. */
  lemma ItemOpsHeadEdges(source: string, index: string, key: string, tlabel: string, items: seq<string>)
    requires |items| > 0
    ensures var ops := ItemOps(source, index, key, tlabel, items);
            EdgesOf([ops[0], ops[1]]) == [LinkEdges(source, index, key, tlabel, items)[0]]
  {
    var ops := ItemOps(source, index, key, tlabel, items);
    var e := Edge(NodeKey(source, index), NodeKey(tlabel, items[0]), FromPairs(LinkEdgePairs(key)));
    assert [ops[0], ops[1]][1..] == [ops[1]];
    assert [ops[1]][1..] == [];
    assert EdgesOf([ops[1]]) == [e];
    assert EdgesOf([ops[0], ops[1]]) == EdgesOf([ops[1]]);
  }

  lemma LinkEdgesCons(source: string, index: string, key: string, tlabel: string, items: seq<string>)
    requires |items| > 0
    ensures LinkEdges(source, index, key, tlabel, items) ==
            [LinkEdges(source, index, key, tlabel, items)[0]] + LinkEdges(source, index, key, tlabel, items[1..])
  {
    var r, t := LinkEdges(source, index, key, tlabel, items), LinkEdges(source, index, key, tlabel, items[1..]);
    forall j | 0 <= j < |t|
      ensures r[j + 1] == t[j]
    {
      assert items[1..][j] == items[j + 1];
    }
  }

  /** Keys of one label are told apart by the id. */
  lemma NodeKeyInjective(nlabel: string, a: string, b: string)
    requires NodeKey(nlabel, a) == NodeKey(nlabel, b)
    ensures a == b
  {
    var k := NodeKey(nlabel, a);
    var p := |Take(nlabel, 3)| + 4;
    assert k[p..] == a;
    assert k[p..] == b;
  }

  lemma ItemNodeValues(tlabel: string, item: string)
    ensures var d := FromPairs(ItemNodePairs(tlabel, item));
            "nlabel" in d.vals && d.vals["nlabel"] == Str(tlabel) &&
            "id" in d.vals && d.vals["id"] == Str(item) &&
            "source" in d.vals && d.vals["source"] == Str(Source)
  {
    var pairs := ItemNodePairs(tlabel, item);
    FromPairsValue(pairs, 0);
    FromPairsValue(pairs, 1);
    FromPairsValue(pairs, 2);
  }

  /** Which item the `i`-th operation of a link column is about. */
  lemma ItemOpAt(source: string, index: string, key: string, tlabel: string, items: seq<string>, i: nat) returns (k: nat)
    requires i < 2 * |items|
    ensures k < |items|
    ensures var ops := ItemOps(source, index, key, tlabel, items);
            ops[i] == AddNodeOp(NodeKey(tlabel, items[k]), ItemNodePairs(tlabel, items[k])) ||
            ops[i] == AddEdgeOp(NodeKey(source, index), NodeKey(tlabel, items[k]), LinkEdgePairs(key))
  {
    k := i / 2;
    if i % 2 == 1 {
      assert i == 2 * k + 1;
    } else {
      assert i == 2 * k;
    }
  }

  /** Attribute `a` of an item's node after a link column's operations is
    * the one the item's own display gives it. */
  lemma ItemNodeAttr(g: Graph, source: string, index: string, key: string, tlabel: string, items: seq<string>, j: nat, a: string)
    requires WellFormed(g) && j < |items|
    requires a in FromPairs(ItemNodePairs(tlabel, items[j])).vals
    ensures Attr(ApplyOps(g, ItemOps(source, index, key, tlabel, items)), NodeKey(tlabel, items[j]), a) ==
            Some(FromPairs(ItemNodePairs(tlabel, items[j])).vals[a])
  {
    var ops := ItemOps(source, index, key, tlabel, items);
    var n := NodeKey(tlabel, items[j]);
    var v := FromPairs(ItemNodePairs(tlabel, items[j])).vals[a];
    assert Sets(ops[2 * j], n, a);
    forall op | op in ops && Sets(op, n, a)
      ensures FromPairs(op.attrs).vals[a] == v
    {
      var i :| 0 <= i < |ops| && ops[i] == op;
      var k := ItemOpAt(source, index, key, tlabel, items, i);
      NodeKeyInjective(tlabel, items[k], items[j]);
    }
    ApplyOpsAttrWritten(g, ops, n, a, v);
  }

  /** After a link column's operations, every item's node carries the target
    * label, the item as its id and the Wikidata source. */
  lemma ItemNodesLabelled(g: Graph, source: string, index: string, key: string, tlabel: string, items: seq<string>, j: nat)
    requires WellFormed(g) && j < |items|
    ensures var h := ApplyOps(g, ItemOps(source, index, key, tlabel, items));
            var n := NodeKey(tlabel, items[j]);
            Attr(h, n, "nlabel") == Some(Str(tlabel)) && Attr(h, n, "id") == Some(Str(items[j])) &&
            Attr(h, n, "source") == Some(Str(Source))
  {
    ItemNodeValues(tlabel, items[j]);
    ItemNodeAttr(g, source, index, key, tlabel, items, j, "nlabel");
    ItemNodeAttr(g, source, index, key, tlabel, items, j, "id");
    ItemNodeAttr(g, source, index, key, tlabel, items, j, "source");
  }

  /** One link column and one target label of one row (the innermost loop
    * of `__create_node`): a missing column raises KeyError and changes
    * nothing; a missing cell, or a string of at most one character, adds
    * nothing; a value that is neither missing nor a string adds nothing
    * (it is too short or raises); a longer string adds, for each `;` item,
    * the item's node and the edge `LinkEdges` names, and raises nothing. */
  lemma LinkItemsEffect(g: Graph, source: string, index: string, row: Row, key: string, tlabel: string)
    requires WellFormed(g)
    ensures var s := LinkItems(source, index, row, key, tlabel);
            (key !in row ==> s == Raise(KeyError(key))) &&
            (key in row && (IsNaN(row[key]) || (row[key].Str? && |row[key].s| <= 1)) ==> s == Do([])) &&
            (key in row && !IsNaN(row[key]) && !row[key].Str? ==> s.ops == []) &&
            (key in row && row[key].Str? && |row[key].s| > 1 ==>
               var items := Split(row[key].s, ';');
               var h := ApplyOps(g, s.ops);
               s.failure.None? &&
               h.edges == g.edges + LinkEdges(source, index, key, tlabel, items) &&
               forall j :: 0 <= j < |items| ==>
                 Attr(h, NodeKey(tlabel, items[j]), "nlabel") == Some(Str(tlabel)) &&
                 Attr(h, NodeKey(tlabel, items[j]), "id") == Some(Str(items[j])) &&
                 Attr(h, NodeKey(tlabel, items[j]), "source") == Some(Str(Source)))
  {
    if key in row && row[key].Str? && |row[key].s| > 1 {
      var items := Split(row[key].s, ';');
      var ops := ItemOps(source, index, key, tlabel, items);
      ApplyOpsEdges(g, ops);
      ItemOpsEdges(source, index, key, tlabel, items);
      forall j | 0 <= j < |items|
        ensures var h := ApplyOps(g, ops);
                Attr(h, NodeKey(tlabel, items[j]), "nlabel") == Some(Str(tlabel)) &&
                Attr(h, NodeKey(tlabel, items[j]), "id") == Some(Str(items[j])) &&
                Attr(h, NodeKey(tlabel, items[j]), "source") == Some(Str(Source))
      {
        ItemNodesLabelled(g, source, index, key, tlabel, items, j);
      }
    }
  }

  /** Keys built for two labels with different first letters never meet. */
  lemma NodeKeysOfLabelsDiffer(l1: string, l2: string, a: string, b: string)
    requires |l1| > 0 && |l2| > 0 && l1[0] != l2[0]
    ensures NodeKey(l1, a) != NodeKey(l2, b)
  {
    assert NodeKey(l1, a)[3] == l1[0];
    assert NodeKey(l2, b)[3] == l2[0];
  }

  /** The operations of one target label never write a node of another. */
  lemma ItemOpsLeaveOthers(source: string, index: string, key: string, tlabel: string, items: seq<string>,
                           other: string, item: string, a: string)
    requires |tlabel| > 0 && |other| > 0 && tlabel[0] != other[0]
    ensures forall op :: op in ItemOps(source, index, key, tlabel, items) ==> !Sets(op, NodeKey(other, item), a)
  {
    var ops := ItemOps(source, index, key, tlabel, items);
    forall op | op in ops
      ensures !Sets(op, NodeKey(other, item), a)
    {
      var i :| 0 <= i < |ops| && ops[i] == op;
      var k := ItemOpAt(source, index, key, tlabel, items, i);
      NodeKeysOfLabelsDiffer(tlabel, other, items[k], item);
    }
  }

  /** The `Owner` column links to both a Person and an Organization: each
    * item yields a Person node and an Organization node, and the row gets
    * the Person edges followed by the Organization edges. */
  lemma OwnerLinksBoth(g: Graph, source: string, index: string, row: Row, key: string)
    requires WellFormed(g) && key in row && row[key].Str? && |row[key].s| > 1
    ensures var s := LinkLabels(source, index, row, key, ["Person", "Organization"]);
            var items := Split(row[key].s, ';');
            var h := ApplyOps(g, s.ops);
            s.failure.None? &&
            h.edges == g.edges + LinkEdges(source, index, key, "Person", items)
                               + LinkEdges(source, index, key, "Organization", items) &&
            forall j :: 0 <= j < |items| ==>
              Attr(h, NodeKey("Person", items[j]), "nlabel") == Some(Str("Person")) &&
              Attr(h, NodeKey("Organization", items[j]), "nlabel") == Some(Str("Organization"))
  {
    var labels := ["Person", "Organization"];
    var items := Split(row[key].s, ';');
    var pOps := ItemOps(source, index, key, "Person", items);
    var oOps := ItemOps(source, index, key, "Organization", items);
    assert labels[1..] == ["Organization"];
    assert labels[1..][1..] == [];
    assert LinkItems(source, index, row, key, "Person") == Do(pOps);
    assert LinkItems(source, index, row, key, "Organization") == Do(oOps);
    var s := LinkLabels(source, index, row, key, labels);
    var rest := LinkLabels(source, index, row, key, ["Organization"]);
    assert LinkLabels(source, index, row, key, []) == Do([]);
    assert rest == Then(Do(oOps), Do([]));
    assert rest == Do(oOps + []);
    assert s == Then(Do(pOps), rest);
    assert s.ops == pOps + oOps;
    ApplyOpsAppend(g, pOps, oOps);
    var h1 := ApplyOps(g, pOps);
    ApplyOpsEdges(g, pOps);
    ApplyOpsEdges(h1, oOps);
    ItemOpsEdges(source, index, key, "Person", items);
    ItemOpsEdges(source, index, key, "Organization", items);
    forall j | 0 <= j < |items|
      ensures Attr(ApplyOps(h1, oOps), NodeKey("Person", items[j]), "nlabel") == Some(Str("Person"))
      ensures Attr(ApplyOps(h1, oOps), NodeKey("Organization", items[j]), "nlabel") == Some(Str("Organization"))
    {
      ItemNodesLabelled(g, source, index, key, "Person", items, j);
      ItemOpsLeaveOthers(source, index, key, "Organization", items, "Person", items[j], "nlabel");
      ApplyOpsAttrUntouched(h1, oOps, NodeKey("Person", items[j]), "nlabel");
      ItemNodesLabelled(h1, source, index, key, "Organization", items, j);
    }
  }

  /** Edges are never merged: running the same row's link operations a
    * second time appends the same edges again, in parallel to the first. */
  lemma RerunAddsParallelEdges(g: Graph, source: string, index: string, row: Row, key: string, tlabel: string)
    requires WellFormed(g) && key in row && row[key].Str? && |row[key].s| > 1
    ensures var ops := LinkItems(source, index, row, key, tlabel).ops;
            var e := LinkEdges(source, index, key, tlabel, Split(row[key].s, ';'));
            ApplyOps(ApplyOps(g, ops), ops).edges == g.edges + e + e &&
            |ApplyOps(ApplyOps(g, ops), ops).edges| == |g.edges| + 2 * |Split(row[key].s, ';')|
  {
    var ops := LinkItems(source, index, row, key, tlabel).ops;
    var h := ApplyOps(g, ops);
    ApplyOpsEdges(g, ops);
    ApplyOpsEdges(h, ops);
    ItemOpsEdges(source, index, key, tlabel, Split(row[key].s, ';'));
  }
}
