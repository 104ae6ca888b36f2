// The invariant the Wikidata builders keep and the twin cleanup relies on:
// every Wikidata entity node sits under the key its label and id give
// (`KeysFollowIds`). Upserts either set label and id to match their key or
// leave them alone, and edges only add attribute-less stubs.
module WikidataInvariant {
  import opened Wrappers
  import opened Text
  import opened Values
  import opened OrderedDicts
  import opened Graphs
  import opened WikidataGraph
  import opened WikidataFacts

  /** An operation that cannot break `KeysFollowIds`: an edge, or an upsert
    * that sets none of `nlabel`, `id`, `source`, or sets label and id to
    * the ones its key is built from. */
  predicate ConsistentOp(op: GraphOp)
  {
    op.AddEdgeOp? ||
    (var d := FromPairs(op.attrs);
     ("nlabel" !in d.vals && "id" !in d.vals && "source" !in d.vals) || KeyedBy(op.key, d))
  }

  predicate OpsConsistent(ops: seq<GraphOp>)
  {
    forall j :: 0 <= j < |ops| ==> ConsistentOp(ops[j])
  }

  predicate StepsConsistent(steps: seq<Step>)
  {
    forall i :: 0 <= i < |steps| ==> OpsConsistent(steps[i].ops)
  }

  lemma NodeAddedKeeps(g: Graph, key: string, d: Attrs)
    requires WellFormed(g) && KeysFollowIds(g) && d.Valid()
    requires ("nlabel" !in d.vals && "id" !in d.vals && "source" !in d.vals) || KeyedBy(key, d)
    ensures KeysFollowIds(NodeAdded(g, key, d))
  {
    var h := NodeAdded(g, key, d);
    forall n | n in h.nodes.vals && "nlabel" in h.nodes.vals[n].vals && FromWikidata(h.nodes.vals[n])
      ensures KeyedBy(n, h.nodes.vals[n])
    {
      if n == key {
        var after := h.nodes.vals[key].vals;
        if KeyedBy(key, d) {
          assert after["nlabel"] == d.vals["nlabel"] && after["id"] == d.vals["id"];
        } else {
          var before := g.nodes.vals[key].vals;
          assert after["nlabel"] == before["nlabel"];
          assert after["source"] == before["source"];
          assert FromWikidata(g.nodes.vals[key]);
          assert "id" in before ==> after["id"] == before["id"];
        }
      }
    }
  }

  lemma EdgeAddedKeeps(g: Graph, u: string, v: string, d: Attrs)
    requires WellFormed(g) && KeysFollowIds(g) && d.Valid()
    ensures KeysFollowIds(EdgeAdded(g, u, v, d))
  {
    var h := EdgeAdded(g, u, v, d);
    forall n | n in h.nodes.vals && "nlabel" in h.nodes.vals[n].vals && FromWikidata(h.nodes.vals[n])
      ensures KeyedBy(n, h.nodes.vals[n])
    {
    }
  }

  lemma ApplyOpKeeps(g: Graph, op: GraphOp)
    requires WellFormed(g) && KeysFollowIds(g) && ConsistentOp(op)
    ensures KeysFollowIds(ApplyOp(g, op))
  {
    match op
    case AddNodeOp(key, attrs) => NodeAddedKeeps(g, key, FromPairs(attrs));
    case AddEdgeOp(u, v, attrs) => EdgeAddedKeeps(g, u, v, FromPairs(attrs));
  }

  lemma {:induction false} ApplyOpsKeep(g: Graph, ops: seq<GraphOp>)
    requires WellFormed(g) && KeysFollowIds(g) && OpsConsistent(ops)
    ensures KeysFollowIds(ApplyOps(g, ops))
    decreases |ops|
  {
    if |ops| > 0 {
      ApplyOpKeeps(g, ops[0]);
      assert OpsConsistent(ops[1..]) by {
        forall j | 0 <= j < |ops[1..]|
          ensures ConsistentOp(ops[1..][j])
        {
          assert ops[1..][j] == ops[j + 1];
        }
      }
      ApplyOpsKeep(ApplyOp(g, ops[0]), ops[1..]);
    }
  }

  /** Rows whose operations are all consistent keep the invariant, whether
    * or not a row raises. */
  lemma {:induction false} IngestKeeps(g: Graph, steps: seq<Step>)
    requires WellFormed(g) && KeysFollowIds(g) && StepsConsistent(steps)
    ensures KeysFollowIds(Ingest(g, steps).0)
    decreases |steps|
  {
    if |steps| > 0 {
      ApplyOpsKeep(g, steps[0].ops);
      assert StepsConsistent(steps[1..]) by {
        forall i | 0 <= i < |steps[1..]|
          ensures OpsConsistent(steps[1..][i].ops)
        {
          assert steps[1..][i] == steps[i + 1];
        }
      }
      IngestKeeps(ApplyOps(g, steps[0].ops), steps[1..]);
    }
  }

  lemma StepsConsistentAppend(a: seq<Step>, b: seq<Step>)
    requires StepsConsistent(a) && StepsConsistent(b)
    ensures StepsConsistent(a + b)
  {
    forall i | 0 <= i < |a + b|
      ensures OpsConsistent((a + b)[i].ops)
    {
      if i < |a| {
        assert (a + b)[i] == a[i];
      } else {
        assert (a + b)[i] == b[i - |a|];
      }
    }
  }

  lemma OpsConsistentAppend(a: seq<GraphOp>, b: seq<GraphOp>)
    requires OpsConsistent(a) && OpsConsistent(b)
    ensures OpsConsistent(a + b)
  {
    forall j | 0 <= j < |a + b|
      ensures ConsistentOp((a + b)[j])
    {
      if j < |a| {
        assert (a + b)[j] == a[j];
      } else {
        assert (a + b)[j] == b[j - |a|];
      }
    }
  }

  // ---- Entity rows -----------------------------------------------------------

  /** An upsert writing only multi-valued columns touches no key attribute. */
  lemma MultiUpsertConsistent(key: string, pairs: seq<(string, Value)>, multi: seq<string>)
    requires forall k :: 0 <= k < |multi| ==> Lower(multi[k]) != "id" && Lower(multi[k]) != "nlabel" && Lower(multi[k]) != "source"
    requires forall a :: a in FromPairs(pairs).vals ==> exists k :: 0 <= k < |multi| && Lower(multi[k]) == a
    ensures ConsistentOp(AddNodeOp(key, pairs))
  {
    var d := FromPairs(pairs);
    forall a | a in d.vals
      ensures a != "nlabel" && a != "id" && a != "source"
    {
      var k :| 0 <= k < |multi| && Lower(multi[k]) == a;
    }
  }

  lemma LaterOpsConsistent(key: string, row: Row, multi: seq<string>, rule: SkipRule)
    requires forall k :: 0 <= k < |multi| ==> Lower(multi[k]) != "id" && Lower(multi[k]) != "nlabel" && Lower(multi[k]) != "source"
    ensures OpsConsistent(LaterOps(key, row, multi, rule))
  {
    match SplitColumns(row, multi, rule)
    case Failure(_) =>
    case Success(split) =>
      SplitUpsertConsistent(key, row, multi, rule);
      FloatUpsertConsistent(key, row, multi);
      var ops := LaterOps(key, row, multi, rule);
      if rule == SkipFloats {
        assert ops == [AddNodeOp(key, split), AddNodeOp(key, FloatColumns(row, multi))];
      } else {
        assert ops == [AddNodeOp(key, split)];
      }
  }

  /** The upsert of the `;`-split columns writes only multi-valued columns. */
  lemma SplitUpsertConsistent(key: string, row: Row, multi: seq<string>, rule: SkipRule)
    requires forall k :: 0 <= k < |multi| ==> Lower(multi[k]) != "id" && Lower(multi[k]) != "nlabel" && Lower(multi[k]) != "source"
    requires SplitColumns(row, multi, rule).Success?
    ensures ConsistentOp(AddNodeOp(key, SplitColumns(row, multi, rule).value))
  {
    var split := SplitColumns(row, multi, rule).value;
    forall a | a in FromPairs(split).vals
      ensures exists k :: 0 <= k < |multi| && Lower(multi[k]) == a
    {
      SplitNames(row, multi, rule, a);
    }
    MultiUpsertConsistent(key, split, multi);
  }

  /** The upsert of the missing (float) columns writes only multi-valued columns. */
  lemma FloatUpsertConsistent(key: string, row: Row, multi: seq<string>)
    requires forall k :: 0 <= k < |multi| ==> Lower(multi[k]) != "id" && Lower(multi[k]) != "nlabel" && Lower(multi[k]) != "source"
    ensures ConsistentOp(AddNodeOp(key, FloatColumns(row, multi)))
  {
    forall a | a in FromPairs(FloatColumns(row, multi)).vals
      ensures exists k :: 0 <= k < |multi| && Lower(multi[k]) == a
    {
      FloatNames(row, multi, a);
    }
    MultiUpsertConsistent(key, FloatColumns(row, multi), multi);
  }

  /** An entity row's upserts keep the invariant: the first sets `id` and
    * `nlabel` to the ones its key is made of, the later ones write only
    * multi-valued columns. */
  lemma EntityStepConsistent(index: string, nlabel: string, row: Row, scalars: seq<Column>, multi: seq<string>, rule: SkipRule)
    requires NamesApart(scalars, multi)
    ensures OpsConsistent(EntityStep(index, nlabel, row, scalars, multi, rule).ops)
  {
    var r := Scalars(row, scalars);
    if r.Success? {
      var key := NodeKey(nlabel, index);
      var first := AddNodeOp(key, EntityPairs(index, nlabel, r.value));
      FirstUpsertConsistent(index, nlabel, r.value);
      EntityStepShape(index, nlabel, row, scalars, multi, rule);
      LaterOpsConsistent(key, row, multi, rule);
      OpsConsistentAppend([first], LaterOps(key, row, multi, rule));
    }
  }

  /** The first upsert of an entity row sets `id` and `nlabel` to those of
    * its key. */
  lemma FirstUpsertConsistent(index: string, nlabel: string, sc: seq<(string, Value)>)
    requires forall j :: 0 <= j < |sc| ==> sc[j].0 != "id" && sc[j].0 != "nlabel" && sc[j].0 != "source"
    ensures OpsConsistent([AddNodeOp(NodeKey(nlabel, index), EntityPairs(index, nlabel, sc))])
  {
    FixedInPairs(index, nlabel, sc);
    KeyedUpsertConsistent(index, nlabel, EntityPairs(index, nlabel, sc));
  }

  lemma KeyedUpsertConsistent(index: string, nlabel: string, pairs: seq<(string, Value)>)
    requires var d := FromPairs(pairs);
             "id" in d.vals && d.vals["id"] == Str(index) && "nlabel" in d.vals && d.vals["nlabel"] == Str(nlabel)
    ensures OpsConsistent([AddNodeOp(NodeKey(nlabel, index), pairs)])
  {
    assert KeyedBy(NodeKey(nlabel, index), FromPairs(pairs));
  }

  lemma {:induction false} EntityRowsConsistent(df: Frame, nlabel: string, scalars: seq<Column>, multi: seq<string>, rule: SkipRule)
    requires NamesApart(scalars, multi)
    ensures StepsConsistent(EntityRows(df, nlabel, scalars, multi, rule))
  {
    var steps := EntityRows(df, nlabel, scalars, multi, rule);
    forall i | 0 <= i < |steps|
      ensures OpsConsistent(steps[i].ops)
    {
      EntityStepConsistent(df[i].0, nlabel, df[i].1, scalars, multi, rule);
    }
  }

  // ---- Link rows -------------------------------------------------------------

  lemma ItemOpsConsistent(source: string, index: string, key: string, tlabel: string, items: seq<string>)
    ensures OpsConsistent(ItemOps(source, index, key, tlabel, items))
  {
    var ops := ItemOps(source, index, key, tlabel, items);
    forall i | 0 <= i < |ops|
      ensures ConsistentOp(ops[i])
    {
      var k := ItemOpAt(source, index, key, tlabel, items, i);
      ItemNodeValues(tlabel, items[k]);
    }
  }

  lemma LinkItemsConsistent(source: string, index: string, row: Row, key: string, tlabel: string)
    ensures OpsConsistent(LinkItems(source, index, row, key, tlabel).ops)
  {
    if key in row && row[key].Str? && |row[key].s| > 1 {
      ItemOpsConsistent(source, index, key, tlabel, Split(row[key].s, ';'));
    }
  }

  lemma ThenConsistent(a: Step, b: Step)
    requires OpsConsistent(a.ops) && OpsConsistent(b.ops)
    ensures OpsConsistent(Then(a, b).ops)
  {
    if a.failure.None? {
      OpsConsistentAppend(a.ops, b.ops);
    }
  }

  lemma {:induction false} LinkLabelsConsistent(source: string, index: string, row: Row, key: string, labels: seq<string>)
    ensures OpsConsistent(LinkLabels(source, index, row, key, labels).ops)
    decreases |labels|
  {
    if |labels| > 0 {
      LinkItemsConsistent(source, index, row, key, labels[0]);
      LinkLabelsConsistent(source, index, row, key, labels[1..]);
      ThenConsistent(LinkItems(source, index, row, key, labels[0]), LinkLabels(source, index, row, key, labels[1..]));
    }
  }

  lemma {:induction false} LinkStepConsistent(source: string, index: string, row: Row, links: seq<string>, labels: seq<string>)
    ensures OpsConsistent(LinkStep(source, index, row, links, labels).ops)
    decreases |links|
  {
    if |links| > 0 {
      LinkLabelsConsistent(source, index, row, links[0], labels);
      LinkStepConsistent(source, index, row, links[1..], labels);
      ThenConsistent(LinkLabels(source, index, row, links[0], labels), LinkStep(source, index, row, links[1..], labels));
    }
  }

  lemma {:induction false} LinkRowsConsistent(df: Frame, source: string, targets: seq<Target>)
    ensures StepsConsistent(LinkRows(df, source, targets))
    decreases |targets|
  {
    if |targets| > 0 {
      var t := targets[0];
      var steps := LinkRowsFor(df, source, t);
      forall i | 0 <= i < |steps|
        ensures OpsConsistent(steps[i].ops)
      {
        LinkStepConsistent(source, df[i].0, df[i].1, t.links, t.labels);
      }
      LinkRowsConsistent(df, source, targets[1..]);
      StepsConsistentAppend(steps, LinkRows(df, source, targets[1..]));
    }
  }

  // ---- Whole operations ------------------------------------------------------

  /** `create_companies` keeps every Wikidata node under the key of its label
    * and id. */
  lemma CompaniesKeepKeys(g: Graph, df: Frame)
    requires WellFormed(g) && KeysFollowIds(g)
    ensures KeysFollowIds(Ingest(g, CompaniesSteps(df)).0)
  {
    CompanyTableApart();
    EntityRowsConsistent(df, "Organization", SameNames(CompanyScalars), CompanyMulti, SkipFloats);
    LinkRowsConsistent(df, "Organization", OrganizationTargets);
    StepsConsistentAppend(EntityRows(df, "Organization", SameNames(CompanyScalars), CompanyMulti, SkipFloats),
                          LinkRows(df, "Organization", OrganizationTargets));
    IngestKeeps(g, CompaniesSteps(df));
  }

  /** `expand_nodes`, for any label, keeps the invariant too. */
  lemma ExpansionKeepsKeys(g: Graph, df: Frame, node: string)
    requires WellFormed(g) && KeysFollowIds(g) && ExpansionSteps(g, df, node).Success?
    ensures KeysFollowIds(Ingest(g, ExpansionSteps(g, df, node).value).0)
  {
    var rows := ExpansionRows(g, df, node).value;
    if node == "Person" {
      PersonTableApart();
      EntityRowsConsistent(rows, "Person", SameNames(PersonScalars), PersonMulti, SkipFloats);
      LinkRowsConsistent(rows, "Person", PersonTargets);
      StepsConsistentAppend(EntityRows(rows, "Person", SameNames(PersonScalars), PersonMulti, SkipFloats),
                            LinkRows(rows, "Person", PersonTargets));
    } else if node == "Product" {
      ProductTableApart();
      EntityRowsConsistent(rows, "Product", SameNames(ProductScalars), ExpandMulti, SkipFloats);
    } else {
      ExpandTableApart();
      EntityRowsConsistent(rows, node, ExpandScalars, ExpandMulti, SkipMissing);
    }
    IngestKeeps(g, ExpansionSteps(g, df, node).value);
  }
}
