// The Wikidata graph builder (wikidata/wikidata_networkx.py): organization,
// person and product rows become attributed nodes keyed `WD_<nlabel[:3]>_<id>`,
// link columns become edges to (possibly new) entity nodes, and a final pass
// removes the unlabeled twin of an entity that is both an Organization and a
// Person.
module WikidataGraph {
  import opened Wrappers
  import opened Text
  import opened Values
  import opened OrderedDicts
  import opened Graphs
  import opened GraphStatistics
  import opened GraphmlCleaning

  const Source := "Wikidata"

  /** `"WD_{}_{}".format(nlabel[:3], id)`. */
  function NodeKey(nlabel: string, id: string): (k: string)
    ensures |k| == 4 + |Take(nlabel, 3)| + |id|
    ensures k[..3] == "WD_" && k[|k| - |id|..] == id
  {
    "WD_" + Take(nlabel, 3) + "_" + id
  }

  /** One entry of the builder's link tables: the link columns that point to
    * entities of `labels`. */
  datatype Target = Target(name: string, labels: seq<string>, links: seq<string>)

  /** `o_nodes`, in its key order: what an organization row links to. */
  const OrganizationTargets: seq<Target> := [
    Target("Person", ["Person"], ["FOUNDED_BY", "CHIEF_EXECUTIVE_OFFICER", "DIRECTOR", "CHAIRPERSON", "BOARD_MEMBER"]),
    Target("Organization", ["Organization"],
           ["OWNER_OF", "PARENT_ORGANIZATION", "SUBSIDIARY", "MEMBER_OF", "DIFFERENT_FROM", "REPLACED_BY", "REPLACES"]),
    Target("Owner", ["Person", "Organization"], ["OWNED_BY"]),
    Target("StockExchange", ["StockExchange"], ["IN_STOCK_EXCHANGE"]),
    Target("Group", ["Group"], ["PART_OF"]),
    Target("Industry", ["Industry"], ["IN_INDUSTRY"]),
    Target("Grant", ["Grant"], ["RECEIVED_GRANT"]),
    Target("Location", ["Location"], ["LOCATION_OF_FORMATION"]),
    Target("Country", ["Country"], ["COUNTRY"]),
    Target("Product", ["Product"], ["PRODUCES"])
  ]

  /** `p_nodes`, in its key order: what a person row links to. */
  const PersonTargets: seq<Target> := [
    Target("Organization", ["Organization"], ["MEMBER_OF"]),
    Target("Grant", ["Grant"], ["RECEIVED_GRANT"]),
    Target("Location", ["Location"], ["PLACE_OF_BIRTH"]),
    Target("Country", ["Country"], ["CITIZENSHIP"])
  ]

  const CompanyScalars: seq<string> :=
    ["label", "inception", "official_website", "phone_number", "e_mail", "address", "postal_code", "latitude", "longitude"]
  const CompanyMulti: seq<string> :=
    ["aliases", "descriptions", "labels", "official_name", "employees", "total_revenue", "total_assets", "net_profit",
     "operating_income"]
  const PersonScalars: seq<string> := ["label", "gender", "name", "date_of_birth", "erdos_number"]
  const PersonMulti: seq<string> := ["aliases", "descriptions", "labels", "occupation"]
  const ProductScalars: seq<string> := ["label", "inception", "license"]
  const ExpandMulti: seq<string> := ["aliases", "descriptions", "labels"]
  /** The generic expansion copies column `Label` into attribute `label`. */
  const ExpandScalars: seq<Column> := [("label", "Label")]

  // ---- One row ---------------------------------------------------------------

  /** The attributes of an entity node: `id`, `nlabel`, the copied columns
    * and `source`, in keyword order. */
  function EntityPairs(index: string, nlabel: string, scalars: seq<(string, Value)>): seq<(string, Value)>
  {
    [("id", Str(index)), ("nlabel", Str(nlabel))] + scalars + [("source", Str(Source))]
  }

  /** Which multi-valued cells a comprehension leaves out:
    * `isinstance(v, float)` or `isNaN(v)`. */
  datatype SkipRule = SkipFloats | SkipMissing

  predicate Skipped(rule: SkipRule, v: Value)
  {
    match rule
    case SkipFloats => IsFloat(v)
    case SkipMissing => IsNaN(v)
  }

  function Lowered(keys: seq<string>): (r: seq<string>)
    ensures |r| == |keys| && forall i :: 0 <= i < |keys| ==> r[i] == Lower(keys[i])
  {
    if |keys| == 0 then [] else [Lower(keys[0])] + Lowered(keys[1..])
  }

  /** `{key.lower(): row[key].split(';') for key in keys if not skipped}`. */
  function SplitColumns(row: Row, keys: seq<string>, rule: SkipRule): (r: Result<seq<(string, Value)>, PyError>)
    ensures r.Success? <==>
              forall i :: 0 <= i < |keys| ==> keys[i] in row && (Skipped(rule, row[keys[i]]) || row[keys[i]].Str?)
    ensures r.Success? ==> forall i :: 0 <= i < |keys| && !Skipped(rule, row[keys[i]]) ==>
              (Lower(keys[i]), List(Split(row[keys[i]].s, ';'))) in r.value
  {
    if |keys| == 0 then Success([])
    else
      var v :- Cell(row, keys[0]);
      assert forall i :: 1 <= i < |keys| ==> keys[i] == keys[1..][i - 1];
      if Skipped(rule, v) then SplitColumns(row, keys[1..], rule)
      else
        var items :- SplitValue(v, ';');
        var rest :- SplitColumns(row, keys[1..], rule);
        Success([(Lower(keys[0]), List(items))] + rest)
  }

  /** Every entry of `SplitColumns` is the split list of a string cell that
    * the rule does not skip. */
  lemma {:induction false} SplitColumnsSource(row: Row, keys: seq<string>, rule: SkipRule, j: nat) returns (i: nat)
    requires SplitColumns(row, keys, rule).Success? && j < |SplitColumns(row, keys, rule).value|
    ensures i < |keys| && keys[i] in row && !Skipped(rule, row[keys[i]]) && row[keys[i]].Str?
    ensures SplitColumns(row, keys, rule).value[j] == (Lower(keys[i]), List(Split(row[keys[i]].s, ';')))
  {
    assert forall i :: 1 <= i < |keys| ==> keys[i] == keys[1..][i - 1];
    if Skipped(rule, row[keys[0]]) {
      var i' := SplitColumnsSource(row, keys[1..], rule, j);
      return i' + 1;
    }
    if j == 0 {
      return 0;
    }
    var i' := SplitColumnsSource(row, keys[1..], rule, j - 1);
    return i' + 1;
  }

  /** `{key.lower(): row[key] for key in keys if isinstance(row[key], float)}`,
    * evaluated only after every key was found. */
  function FloatColumns(row: Row, keys: seq<string>): (r: seq<(string, Value)>)
    ensures forall i :: 0 <= i < |keys| && keys[i] in row && IsFloat(row[keys[i]]) ==>
              (Lower(keys[i]), row[keys[i]]) in r
  {
    if |keys| == 0 then []
    else
      var rest := FloatColumns(row, keys[1..]);
      assert forall i :: 1 <= i < |keys| ==> keys[i] == keys[1..][i - 1];
      if keys[0] in row && IsFloat(row[keys[0]]) then [(Lower(keys[0]), row[keys[0]])] + rest else rest
  }

  /** Every entry of `FloatColumns` comes from a float cell of one of the keys. */
  lemma {:induction false} FloatColumnsSource(row: Row, keys: seq<string>, j: nat) returns (i: nat)
    requires j < |FloatColumns(row, keys)|
    ensures i < |keys| && keys[i] in row && IsFloat(row[keys[i]])
    ensures FloatColumns(row, keys)[j] == (Lower(keys[i]), row[keys[i]])
  {
    var rest := FloatColumns(row, keys[1..]);
    if keys[0] in row && IsFloat(row[keys[0]]) {
      if j == 0 {
        return 0;
      }
      var i' := FloatColumnsSource(row, keys[1..], j - 1);
      return i' + 1;
    }
    var i' := FloatColumnsSource(row, keys[1..], j);
    return i' + 1;
  }

  /** The upserts of one entity row: the node with its scalar attributes, then
    * the split multi-valued columns, then (for the float rule) the float ones
    * unchanged. */
  function EntityStep(index: string, nlabel: string, row: Row, scalars: seq<Column>, multi: seq<string>, rule: SkipRule): Step
  {
    match Scalars(row, scalars)
    case Failure(e) => Raise(e)
    case Success(sc) =>
      var key := NodeKey(nlabel, index);
      var first := AddNodeOp(key, EntityPairs(index, nlabel, sc));
      match SplitColumns(row, multi, rule)
      case Failure(e) => Step([first], Some(e))
      case Success(split) =>
        if rule == SkipFloats then Do([first, AddNodeOp(key, split), AddNodeOp(key, FloatColumns(row, multi))])
        else Do([first, AddNodeOp(key, split)])
  }

  function ItemNodePairs(tlabel: string, item: string): seq<(string, Value)>
  {
    [("nlabel", Str(tlabel)), ("id", Str(item)), ("source", Str(Source))]
  }

  function LinkEdgePairs(key: string): seq<(string, Value)>
  {
    [("elabel", Str(Upper(key))), ("source", Str(Source))]
  }

  /** For each `;` item: the linked entity node, then the edge to it. */
  function ItemOps(source: string, index: string, key: string, tlabel: string, items: seq<string>): (ops: seq<GraphOp>)
    ensures |ops| == 2 * |items|
    ensures forall j :: 0 <= j < |items| ==>
              ops[2 * j] == AddNodeOp(NodeKey(tlabel, items[j]), ItemNodePairs(tlabel, items[j])) &&
              ops[2 * j + 1] == AddEdgeOp(NodeKey(source, index), NodeKey(tlabel, items[j]), LinkEdgePairs(key))
  {
    if |items| == 0 then []
    else
      [AddNodeOp(NodeKey(tlabel, items[0]), ItemNodePairs(tlabel, items[0])),
       AddEdgeOp(NodeKey(source, index), NodeKey(tlabel, items[0]), LinkEdgePairs(key))]
      + ItemOps(source, index, key, tlabel, items[1..])
  }

  /** One link column and one target label of one row: nothing for a missing
    * cell or one of length at most 1; otherwise each `;` item. */
  function LinkItems(source: string, index: string, row: Row, key: string, tlabel: string): Step
  {
    match Cell(row, key)
    case Failure(e) => Raise(e)
    case Success(v) =>
      if IsNaN(v) then Do([])
      else
        match Len(v)
        case Failure(e) => Raise(e)
        case Success(n) =>
          if n <= 1 then Do([])
          else
            match SplitValue(v, ';')
            case Failure(e) => Raise(e)
            case Success(items) => Do(ItemOps(source, index, key, tlabel, items))
  }

  function LinkLabels(source: string, index: string, row: Row, key: string, labels: seq<string>): Step
  {
    if |labels| == 0 then Do([])
    else Then(LinkItems(source, index, row, key, labels[0]), LinkLabels(source, index, row, key, labels[1..]))
  }

  /** One row of `__create_node(df, source, target)`: for each link column,
    * for each target label. */
  function LinkStep(source: string, index: string, row: Row, links: seq<string>, labels: seq<string>): Step
  {
    if |links| == 0 then Do([])
    else Then(LinkLabels(source, index, row, links[0], labels), LinkStep(source, index, row, links[1..], labels))
  }

  // ---- Whole chunks ----------------------------------------------------------

  function EntityRows(df: Frame, nlabel: string, scalars: seq<Column>, multi: seq<string>, rule: SkipRule): (r: seq<Step>)
    ensures |r| == |df|
    ensures forall i :: 0 <= i < |df| ==> r[i] == EntityStep(df[i].0, nlabel, df[i].1, scalars, multi, rule)
  {
    if |df| == 0 then []
    else [EntityStep(df[0].0, nlabel, df[0].1, scalars, multi, rule)] + EntityRows(df[1..], nlabel, scalars, multi, rule)
  }

  /** `__create_node(df, source, t)` for each target in turn, each over all rows. */
  function LinkRows(df: Frame, source: string, targets: seq<Target>): seq<Step>
  {
    if |targets| == 0 then []
    else LinkRowsFor(df, source, targets[0]) + LinkRows(df, source, targets[1..])
  }

  function LinkRowsFor(df: Frame, source: string, t: Target): (r: seq<Step>)
    ensures |r| == |df|
    ensures forall i :: 0 <= i < |df| ==> r[i] == LinkStep(source, df[i].0, df[i].1, t.links, t.labels)
  {
    if |df| == 0 then []
    else [LinkStep(source, df[0].0, df[0].1, t.links, t.labels)] + LinkRowsFor(df[1..], source, t)
  }

  /** `create_companies(df)`. */
  function CompaniesSteps(df: Frame): seq<Step>
  {
    EntityRows(df, "Organization", SameNames(CompanyScalars), CompanyMulti, SkipFloats)
    + LinkRows(df, "Organization", OrganizationTargets)
  }

  /** `__expand_person(df)`. */
  function PersonSteps(df: Frame): seq<Step>
  {
    EntityRows(df, "Person", SameNames(PersonScalars), PersonMulti, SkipFloats) + LinkRows(df, "Person", PersonTargets)
  }

  /** `__expand_product(df)`. */
  function ProductSteps(df: Frame): seq<Step>
  {
    EntityRows(df, "Product", SameNames(ProductScalars), ExpandMulti, SkipFloats)
  }

  /** `__expand_node(df, node)`. */
  function ExpandSteps(df: Frame, node: string): seq<Step>
  {
    EntityRows(df, node, ExpandScalars, ExpandMulti, SkipMissing)
  }

  // ---- Id lookups ------------------------------------------------------------

  predicate FromWikidata(a: Attrs) { FromSource(a, Source) }

  /** Nodes `__find_ids(node)` looks at: an `nlabel` equal to `node` and no `label`. */
  predicate Unexpanded(a: Attrs, node: string)
  {
    "label" !in a.vals && "nlabel" in a.vals && a.vals["nlabel"] == Str(node)
  }

  /** `__find_ids(node)` over the given node keys: the `id` of each
    * unexpanded node of that label; such a node without `id` raises. */
  function FindIdsIn(g: Graph, keys: seq<string>, node: string): (r: Result<set<Value>, PyError>)
    requires forall k :: k in keys ==> k in g.nodes.vals
    ensures r.Failure? <==> exists k :: k in keys && Unexpanded(g.nodes.vals[k], node) && "id" !in g.nodes.vals[k].vals
    ensures r.Success? ==> forall v :: v in r.value <==>
              exists k :: k in keys && Unexpanded(g.nodes.vals[k], node) && g.nodes.vals[k].vals["id"] == v
  {
    if |keys| == 0 then Success({})
    else
      var a := g.nodes.vals[keys[0]];
      assert forall k :: k in keys <==> k == keys[0] || k in keys[1..];
      if Unexpanded(a, node) then
        if "id" !in a.vals then Failure(KeyError("id"))
        else
          var rest :- FindIdsIn(g, keys[1..], node);
          Success({a.vals["id"]} + rest)
      else FindIdsIn(g, keys[1..], node)
  }

  function FindIds(g: Graph, node: string): Result<set<Value>, PyError>
    requires WellFormed(g)
  {
    FindIdsIn(g, g.nodes.keys, node)
  }

  /** `df.loc[ids & set(df.index)]`: the rows whose index is one of the ids. */
  function RowsWithIds(df: Frame, ids: set<Value>): (r: Frame)
    ensures forall x :: x in r <==> x in df && Str(x.0) in ids
  {
    if |df| == 0 then []
    else
      var rest := RowsWithIds(df[1..], ids);
      assert forall x :: x in df <==> x == df[0] || x in df[1..];
      if Str(df[0].0) in ids then [df[0]] + rest else rest
  }

  /** The rows `expand_nodes(df, node)` expands: exactly the chunk's rows
    * whose index is the id of an unexpanded node of that label. */
  function ExpansionRows(g: Graph, df: Frame, node: string): (r: Result<Frame, PyError>)
    requires WellFormed(g)
    ensures r.Failure? <==> exists k :: k in g.nodes.vals && Unexpanded(g.nodes.vals[k], node) && "id" !in g.nodes.vals[k].vals
    ensures r.Success? ==> forall x :: x in r.value <==>
              x in df && exists k :: k in g.nodes.vals && Unexpanded(g.nodes.vals[k], node) && g.nodes.vals[k].vals["id"] == Str(x.0)
  {
    var ids :- FindIds(g, node);
    Success(RowsWithIds(df, ids))
  }

  /** `expand_nodes(df, node)`: the rows to expand and what expanding them does. */
  function ExpansionSteps(g: Graph, df: Frame, node: string): Result<seq<Step>, PyError>
    requires WellFormed(g)
  {
    var rows :- ExpansionRows(g, df, node);
    if node == "Person" then Success(PersonSteps(rows))
    else if node == "Product" then Success(ProductSteps(rows))
    else Success(ExpandSteps(rows, node))
  }

  // ---- Twin cleanup ----------------------------------------------------------

  /** `__get_nodes_ids('nlabel', value)`: ids of the Wikidata nodes with that
    * `nlabel`; a matching node without `id` raises. */
  function NodesIdsIn(g: Graph, keys: seq<string>, value: Value): (r: Result<set<Value>, PyError>)
    requires forall k :: k in keys ==> k in g.nodes.vals
    ensures r.Failure? <==> exists k :: k in keys && OfLabel(g.nodes.vals[k], value) && "id" !in g.nodes.vals[k].vals
    ensures r.Success? ==> forall v :: v in r.value <==>
              exists k :: k in keys && OfLabel(g.nodes.vals[k], value) && g.nodes.vals[k].vals["id"] == v
  {
    if |keys| == 0 then Success({})
    else
      var a := g.nodes.vals[keys[0]];
      assert forall k :: k in keys <==> k == keys[0] || k in keys[1..];
      if OfLabel(a, value) then
        if "id" !in a.vals then Failure(KeyError("id"))
        else
          var rest :- NodesIdsIn(g, keys[1..], value);
          Success({a.vals["id"]} + rest)
      else NodesIdsIn(g, keys[1..], value)
  }

  predicate OfLabel(a: Attrs, value: Value)
  {
    "nlabel" in a.vals && a.vals["nlabel"] == value && FromWikidata(a)
  }

  /** `__get_unlabeled_nodes_ids(node)`: reads `nlabel` of every node, so a
    * node without one raises; then the ids of the unlabeled Wikidata nodes of
    * that label. */
  function UnlabeledIdsIn(g: Graph, keys: seq<string>, node: string): (r: Result<set<Value>, PyError>)
    requires forall k :: k in keys ==> k in g.nodes.vals
    ensures r.Failure? <==>
              exists k :: k in keys && ("nlabel" !in g.nodes.vals[k].vals ||
                                        (UnlabeledOf(g.nodes.vals[k], node) && "id" !in g.nodes.vals[k].vals))
    ensures r.Success? ==> forall v :: v in r.value <==>
              exists k :: k in keys && UnlabeledOf(g.nodes.vals[k], node) && g.nodes.vals[k].vals["id"] == v
  {
    if |keys| == 0 then Success({})
    else
      var a := g.nodes.vals[keys[0]];
      assert forall k :: k in keys <==> k == keys[0] || k in keys[1..];
      if "nlabel" !in a.vals then Failure(KeyError("nlabel"))
      else if UnlabeledOf(a, node) then
        if "id" !in a.vals then Failure(KeyError("id"))
        else
          var rest :- UnlabeledIdsIn(g, keys[1..], node);
          Success({a.vals["id"]} + rest)
      else UnlabeledIdsIn(g, keys[1..], node)
  }

  predicate UnlabeledOf(a: Attrs, node: string)
  {
    OfLabel(a, Str(node)) && "label" !in a.vals
  }

  /** What the cleanup removes: ids shared by an Organization and a Person;
    * the Organization node goes when the Person side is labelled, the Person
    * node when the Organization side is. */
  datatype TwinPlan = TwinPlan(common: set<Value>, orgs: set<Value>, persons: set<Value>)

  function PlanFrom(oIds: set<Value>, oUnlabeled: set<Value>, pIds: set<Value>, pUnlabeled: set<Value>): (p: TwinPlan)
    ensures p.orgs <= p.common && p.persons <= p.common
  {
    var common := oIds * pIds;
    TwinPlan(common, common * (pIds - pUnlabeled), common * (oIds - oUnlabeled))
  }

  /** The ids the cleanup works on, without truncation (see Findings). */
  function Twins(g: Graph): (r: Result<TwinPlan, PyError>)
    requires WellFormed(g)
    ensures r.Success? ==> r.value.orgs <= r.value.common && r.value.persons <= r.value.common
  {
    var oIds :- NodesIdsIn(g, g.nodes.keys, Str("Organization"));
    var oUnlabeled :- UnlabeledIdsIn(g, g.nodes.keys, "Organization");
    var pIds :- NodesIdsIn(g, g.nodes.keys, Str("Person"));
    var pUnlabeled :- UnlabeledIdsIn(g, g.nodes.keys, "Person");
    Success(PlanFrom(oIds, oUnlabeled, pIds, pUnlabeled))
  }

  /** `x[7:]` on an id: only strings (and lists) can be sliced. */
  function Truncated(ids: set<Value>): (r: Result<set<Value>, PyError>)
    ensures r.Success? <==> forall v :: v in ids ==> v.Str?
    ensures r.Success? ==> forall v :: v in ids ==> Str(Drop(v.s, 7)) in r.value
    ensures r.Success? ==> forall x :: x in r.value ==> exists v :: v in ids && v.Str? && x == Str(Drop(v.s, 7))
  {
    if exists v :: v in ids && !v.Str? then Failure(TypeError("object is not subscriptable"))
    else Success(set v | v in ids && v.Str? :: Str(Drop(v.s, 7)))
  }

  /** The cleanup's id sets as written: every id loses its first 7 characters
    * (the length of `WD_Org_`), although the sets hold ids, not node keys. */
  function TwinsAsWritten(g: Graph): Result<TwinPlan, PyError>
    requires WellFormed(g)
  {
    var o0 :- NodesIdsIn(g, g.nodes.keys, Str("Organization"));
    var oIds :- Truncated(o0);
    var u0 :- UnlabeledIdsIn(g, g.nodes.keys, "Organization");
    var oUnlabeled :- Truncated(u0);
    var p0 :- NodesIdsIn(g, g.nodes.keys, Str("Person"));
    var pIds :- Truncated(p0);
    var v0 :- UnlabeledIdsIn(g, g.nodes.keys, "Person");
    var pUnlabeled :- Truncated(v0);
    Success(PlanFrom(oIds, oUnlabeled, pIds, pUnlabeled))
  }

  function OrgKey(id: Value): string { "WD_Org_" + Format(id) }

  function PerKey(id: Value): string { "WD_Per_" + Format(id) }

  /** The node keys removed for the ids in `done`. */
  function RemovedKeys(plan: TwinPlan, done: set<Value>): set<string>
  {
    (set v | v in done && v in plan.orgs :: OrgKey(v)) + (set v | v in done && v in plan.persons :: PerKey(v))
  }

  /** Every Wikidata entity node sits under the key its label and id give:
    * the invariant the builders keep, and what makes the cleanup's keys
    * name existing nodes. */
  ghost predicate KeysFollowIds(g: Graph)
  {
    forall n :: n in g.nodes.vals && "nlabel" in g.nodes.vals[n].vals && FromWikidata(g.nodes.vals[n]) ==>
      KeyedBy(n, g.nodes.vals[n])
  }

  predicate KeyedBy(n: string, a: Attrs)
  {
    "nlabel" in a.vals && a.vals["nlabel"].Str? && "id" in a.vals && a.vals["id"].Str? &&
    n == NodeKey(a.vals["nlabel"].s, a.vals["id"].s)
  }

  // ---- The importer ----------------------------------------------------------

  class Importer {
    const graph: PropertyGraph
    /** The cached statistics counters. */
    const stats: StatisticsCache

    ghost predicate Valid()
      reads this, graph
    {
      graph.Valid()
    }

    constructor ()
      ensures Valid() && fresh(graph) && fresh(stats)
      ensures graph.State() == EmptyGraph() && stats.noNodes.None? && stats.noEdges.None?
    {
      graph := new PropertyGraph();
      stats := new StatisticsCache();
    }

    /** `create_companies(df)`: the organization nodes of every row, then the
      * links of every target table entry; an exception stops the run. */
    method CreateCompanies(df: Frame) returns (failure: Option<PyError>)
      requires Valid()
      modifies graph
      ensures Valid()
      ensures (graph.State(), failure) == Ingest(old(graph.State()), CompaniesSteps(df))
    {
      failure := graph.Run(CompaniesSteps(df));
    }

    /** `expand_nodes(df, node)`. */
    method ExpandNodes(df: Frame, node: string) returns (failure: Option<PyError>)
      requires Valid()
      modifies graph
      ensures Valid()
      ensures match ExpansionSteps(old(graph.State()), df, node)
              case Failure(e) => failure == Some(e) && graph.State() == old(graph.State())
              case Success(steps) => (graph.State(), failure) == Ingest(old(graph.State()), steps)
    {
      var found := ExpansionRows(graph.State(), df, node);
      if found.Failure? {
        return Some(found.error);
      }
      var rows := found.value;
      var steps;
      if node == "Person" {
        steps := PersonSteps(rows);
      } else if node == "Product" {
        steps := ProductSteps(rows);
      } else {
        steps := ExpandSteps(rows, node);
      }
      failure := graph.Run(steps);
    }

    /** `clean_companies_onwer()` with the ids used as they are (see
      * Findings): for each shared id, the Organization node goes when the
      * Person side is labelled and the Person node when the Organization side
      * is; `removed` counts the removals. */
    method CleanCompaniesOwner() returns (failure: Option<PyError>, removed: nat)
      requires Valid()
      modifies graph
      ensures Valid()
      ensures Twins(old(graph.State())).Failure? ==>
                failure == Some(Twins(old(graph.State())).error) && graph.State() == old(graph.State())
      ensures Twins(old(graph.State())).Success? && KeysFollowIds(old(graph.State())) ==> failure.None?
      ensures failure.None? ==> Twins(old(graph.State())).Success?
      ensures failure.None? ==>
                var plan := Twins(old(graph.State())).value;
                removed == |plan.orgs| + |plan.persons| &&
                AfterRemovals(old(graph.State()), graph.State(), RemovedKeys(plan, plan.common))
    {
      var twins := Twins(graph.State());
      if twins.Failure? {
        return Some(twins.error), 0;
      }
      TwinKeysUnderInvariant(graph.State(), twins.value);
      failure, removed := RemoveTwins(twins.value);
    }

    /** The loop of `clean_companies_onwer()` over a computed plan. */
    method RemoveTwins(plan: TwinPlan) returns (failure: Option<PyError>, removed: nat)
      requires Valid() && plan.orgs <= plan.common && plan.persons <= plan.common
      modifies graph
      ensures Valid()
      ensures (forall v :: v in plan.common ==> v.Str? && RemovalsPossible(old(graph.State()), plan, {}, v)) ==>
                failure.None?
      ensures failure.None? ==>
                removed == |plan.orgs| + |plan.persons| &&
                AfterRemovals(old(graph.State()), graph.State(), RemovedKeys(plan, plan.common))
    {
      ghost var g0 := graph.State();
      ghost var follows := forall v :: v in plan.common ==> v.Str? && RemovalsPossible(g0, plan, {}, v);
      var remaining := plan.common;
      ghost var done: set<Value> := {};
      removed := 0;
      while remaining != {}
        invariant Valid()
        invariant remaining <= plan.common && done == plan.common - remaining
        invariant removed == |done * plan.orgs| + |done * plan.persons|
        invariant AfterRemovals(g0, graph.State(), RemovedKeys(plan, done))
        invariant follows ==> forall v :: v in plan.common ==> v.Str?
        invariant follows ==> forall v :: v in remaining ==> RemovalsPossible(g0, plan, done, v)
        decreases remaining
      {
        var key :| key in remaining;
        if follows {
          PossibleMeansPresent(g0, graph.State(), plan, done, key);
        }
        var f, count := RemoveTwinsOf(key, plan, g0, done);
        if f.Some? {
          return f, removed + count;
        }
        CountStep(done, plan.orgs, key);
        CountStep(done, plan.persons, key);
        if follows {
          RemovalsStayPossible(g0, plan, done, key, remaining);
        }
        DoneStep(plan.common, remaining, done, key);
        removed := removed + count;
        remaining := remaining - {key};
        done := done + {key};
      }
      PlanCovered(plan, done);
      failure := None;
    }

    /** One turn of the cleanup loop: the removals for one shared id. */
    method RemoveTwinsOf(key: Value, plan: TwinPlan, ghost g0: Graph, ghost done: set<Value>)
      returns (failure: Option<PyError>, count: nat)
      requires Valid() && AfterRemovals(g0, graph.State(), RemovedKeys(plan, done))
      modifies graph
      ensures Valid()
      ensures failure.None? ==>
                count == (if key in plan.orgs then 1 else 0) + (if key in plan.persons then 1 else 0)
      ensures ((key in plan.orgs ==> OrgKey(key) in old(graph.nodes.vals)) &&
               (key in plan.persons ==> PerKey(key) in old(graph.nodes.vals))) ==> failure.None?
      ensures failure.None? ==> AfterRemovals(g0, graph.State(), RemovedKeys(plan, done + {key}))
    {
      RemovedKeysStep(plan, done, key);
      TwinKeysApart(key);
      count := 0;
      ghost var gone := RemovedKeys(plan, done);
      if key in plan.orgs {
        count := count + 1;
        ghost var before := graph.State();
        failure := graph.RemoveNode(OrgKey(key));
        if failure.Some? {
          return;
        }
        AfterRemovalsStep(g0, before, gone, OrgKey(key));
        gone := gone + {OrgKey(key)};
      }
      if key in plan.persons {
        count := count + 1;
        ghost var before := graph.State();
        failure := graph.RemoveNode(PerKey(key));
        if failure.Some? {
          return;
        }
        AfterRemovalsStep(g0, before, gone, PerKey(key));
        gone := gone + {PerKey(key)};
      }
      assert gone == RemovedKeys(plan, done + {key});
      failure := None;
    }

    /** `export(path, format)`: only the GraphML format changes the graph,
      * by the cleaning that precedes the writer. */
    method Export(format: string)
      requires Valid()
      modifies graph
      ensures Valid()
      ensures graph.State() == if format == "graphml" then SafeGraph(old(graph.State())) else old(graph.State())
    {
      if format == "graphml" {
        CleanForGraphml(graph);
      }
    }
  }

  /** While the cleanup runs under the invariant, the nodes still to be
    * removed for `v` are present. */
  ghost predicate RemovalsPossible(g0: Graph, plan: TwinPlan, done: set<Value>, v: Value)
  {
    (v in plan.orgs ==> OrgKey(v) in g0.nodes.vals && OrgKey(v) !in RemovedKeys(plan, done)) &&
    (v in plan.persons ==> PerKey(v) in g0.nodes.vals && PerKey(v) !in RemovedKeys(plan, done))
  }

  /** `g` is `g0` without the nodes `gone` and without the edges touching them. */
  ghost predicate AfterRemovals(g0: Graph, g: Graph, gone: set<string>)
  {
    (forall n :: n in g.nodes.vals <==> n in g0.nodes.vals && n !in gone) &&
    (forall n :: n in g.nodes.vals ==> g.nodes.vals[n] == g0.nodes.vals[n]) &&
    (forall e :: e in g.edges <==> e in g0.edges && e.src !in gone && e.dst !in gone)
  }

  lemma AfterRemovalsStep(g0: Graph, g: Graph, gone: set<string>, k: string)
    requires WellFormed(g) && AfterRemovals(g0, g, gone) && NodeRemoved(g, k).Success?
    ensures AfterRemovals(g0, NodeRemoved(g, k).value, gone + {k})
  {
  }

  lemma TwinKeysApart(v: Value)
    ensures OrgKey(v) != PerKey(v)
  {
    assert OrgKey(v)[3] == 'O' && PerKey(v)[3] == 'P';
  }

  lemma RemovedKeysStep(plan: TwinPlan, done: set<Value>, key: Value)
    ensures RemovedKeys(plan, done + {key}) ==
            RemovedKeys(plan, done) + (if key in plan.orgs then {OrgKey(key)} else {})
                                    + (if key in plan.persons then {PerKey(key)} else {})
  {
  }

  lemma PossibleMeansPresent(g0: Graph, g: Graph, plan: TwinPlan, done: set<Value>, key: Value)
    requires AfterRemovals(g0, g, RemovedKeys(plan, done)) && RemovalsPossible(g0, plan, done, key)
    ensures key in plan.orgs ==> OrgKey(key) in g.nodes.vals
    ensures key in plan.persons ==> PerKey(key) in g.nodes.vals
  {
  }

  lemma DoneStep(common: set<Value>, remaining: set<Value>, done: set<Value>, key: Value)
    requires key in remaining && remaining <= common && done == common - remaining
    ensures done + {key} == common - (remaining - {key}) && key !in done
  {
  }

  lemma PlanCovered(plan: TwinPlan, done: set<Value>)
    requires plan.orgs <= plan.common && plan.persons <= plan.common && done == plan.common
    ensures done * plan.orgs == plan.orgs && done * plan.persons == plan.persons
  {
  }

  lemma CountStep(done: set<Value>, s: set<Value>, key: Value)
    requires key !in done
    ensures |(done + {key}) * s| == |done * s| + if key in s then 1 else 0
  {
    if key in s {
      assert (done + {key}) * s == done * s + {key};
    } else {
      assert (done + {key}) * s == done * s;
    }
  }

  /** Removal keys of different string ids differ, and an Organization key
    * is never a Person key. */
  lemma TwinKeysDistinct(v: Value, w: Value)
    requires v.Str? && w.Str?
    ensures OrgKey(v) == OrgKey(w) ==> v == w
    ensures PerKey(v) == PerKey(w) ==> v == w
    ensures OrgKey(v) != PerKey(w)
  {
    assert OrgKey(v)[3] == 'O' && PerKey(w)[3] == 'P';
    if OrgKey(v) == OrgKey(w) {
      assert v.s == OrgKey(v)[7..] && w.s == OrgKey(w)[7..];
    }
    if PerKey(v) == PerKey(w) {
      assert v.s == PerKey(v)[7..] && w.s == PerKey(w)[7..];
    }
  }

  /** Under the invariant, an id of a Wikidata node with label `nlabel` is a
    * string and the node sits under `NodeKey(nlabel, id)`. */
  lemma IdNamesNode(g: Graph, nlabel: string, v: Value)
    requires WellFormed(g) && KeysFollowIds(g)
    requires NodesIdsIn(g, g.nodes.keys, Str(nlabel)).Success?
    requires v in NodesIdsIn(g, g.nodes.keys, Str(nlabel)).value
    ensures v.Str? && NodeKey(nlabel, v.s) in g.nodes.vals
  {
    var k :| k in g.nodes.keys && OfLabel(g.nodes.vals[k], Str(nlabel)) && g.nodes.vals[k].vals["id"] == v;
    assert KeyedBy(k, g.nodes.vals[k]);
  }

  lemma OrgKeyIsNodeKey(v: Value)
    requires v.Str?
    ensures OrgKey(v) == NodeKey("Organization", v.s)
  {
    assert Take("Organization", 3) == "Org";
    assert "WD_" + "Org" + "_" + v.s == "WD_Org_" + v.s;
  }

  lemma PerKeyIsNodeKey(v: Value)
    requires v.Str?
    ensures PerKey(v) == NodeKey("Person", v.s)
  {
    assert Take("Person", 3) == "Per";
    assert "WD_" + "Per" + "_" + v.s == "WD_Per_" + v.s;
  }

  /** Under the invariant, every id the cleanup handles is a string and names
    * the node it is about to remove. */
  lemma TwinKeysUnderInvariant(g: Graph, plan: TwinPlan)
    requires WellFormed(g) && Twins(g) == Success(plan)
    ensures KeysFollowIds(g) ==> forall v :: v in plan.common ==> v.Str? && RemovalsPossible(g, plan, {}, v)
  {
    if KeysFollowIds(g) {
      var oIds := NodesIdsIn(g, g.nodes.keys, Str("Organization")).value;
      var pIds := NodesIdsIn(g, g.nodes.keys, Str("Person")).value;
      assert plan.common == oIds * pIds;
      forall v | v in plan.common
        ensures v.Str? && RemovalsPossible(g, plan, {}, v)
      {
        IdNamesNode(g, "Organization", v);
        IdNamesNode(g, "Person", v);
        OrgKeyIsNodeKey(v);
        PerKeyIsNodeKey(v);
      }
    }
  }

  lemma RemovalsStayPossible(g0: Graph, plan: TwinPlan, done: set<Value>, key: Value, remaining: set<Value>)
    requires key in remaining && remaining <= plan.common && key !in done
    requires forall v :: v in plan.common ==> v.Str?
    requires forall v :: v in remaining ==> RemovalsPossible(g0, plan, done, v)
    ensures forall v :: v in remaining - {key} ==> RemovalsPossible(g0, plan, done + {key}, v)
  {
    RemovedKeysStep(plan, done, key);
    forall v | v in remaining - {key}
      ensures RemovalsPossible(g0, plan, done + {key}, v)
    {
      TwinKeysDistinct(v, key);
      TwinKeysDistinct(key, v);
    }
  }
}
