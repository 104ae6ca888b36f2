// The Cypher importer for the cleaned Wikidata tables (wikidata/wd_import.py):
// one `MERGE … SET` statement per entity row, holding its present columns
// with backslashes and double quotes made harmless, and one statement per
// link item joining the row's entity to a target entity. Statements run in
// one transaction each call; the first error ends the call.
module WdImport {
  import opened Wrappers
  import opened Text
  import opened Values
  import opened WikidataGraph
  import opened Neo4jImport

  // ---- Sanitising and assignments ----------------------------------------------------

  /** `re.sub("\\\\", "/", s)` and then `re.sub('"', "'", s)`. */
  function Sanitize(s: string): (r: string)
    ensures '\\' !in r && '"' !in r
    ensures |r| == |s|
  {
    var slashes := ReplaceChar(s, '\\', "/");
    ReplaceCharKeepsAbsent(slashes, '"', "'", '\\');
    ReplaceChar(slashes, '"', "'")
  }

  lemma {:induction false} ReplaceCharKeepsAbsent(s: string, c: char, rep: string, d: char)
    requires d !in s && d !in rep
    ensures d !in ReplaceChar(s, c, rep)
    decreases |s|
  {
    if |s| > 0 {
      assert d !in s[1..];
      ReplaceCharKeepsAbsent(s[1..], c, rep, d);
    }
  }

  /** Text without backslashes or double quotes passes unchanged, so
    * sanitising twice is sanitising once. */
  lemma SanitizeKeepsClean(s: string)
    requires '\\' !in s && '"' !in s
    ensures Sanitize(s) == s
  {
  }

  lemma SanitizeIdempotent(s: string)
    ensures Sanitize(Sanitize(s)) == Sanitize(s)
  {
    SanitizeKeepsClean(Sanitize(s));
  }

  /** How a column is written: a quoted string, a `SPLIT` list, or a bare
    * number. */
  datatype Rhs = Quoted(s: string) | SplitList(s: string) | Bare(s: string)

  /** One `,c.<key>= …` of a statement. */
  datatype Assignment = Assignment(key: string, rhs: Rhs)

  datatype Kind = AsText | AsList | AsNumber

  /** The assignment of column `k` holding `v`, or none: a missing value is
    * left out, and a coordinate is written only when it is a float. */
  function AssignmentOf(k: string, v: Value, kind: Kind): (r: Option<Assignment>)
    ensures r.Some? ==> r.value.key == k
    ensures r.Some? <==> !v.Missing? && (kind == AsNumber ==> v.Float?)
    ensures r.Some? && kind == AsText ==> r.value.rhs.Quoted?
    ensures r.Some? && kind == AsList ==> r.value.rhs.SplitList?
    ensures r.Some? && kind != AsNumber ==> '\\' !in r.value.rhs.s && '"' !in r.value.rhs.s
  {
    if v.Missing? then None
    else
      match kind
      case AsText => Some(Assignment(k, Quoted(Sanitize(Format(v)))))
      case AsList => Some(Assignment(k, SplitList(Sanitize(Format(v)))))
      case AsNumber => if v.Float? then Some(Assignment(k, Bare(v.repr))) else None
  }

  /** The assignments of the columns `keys`, in order; a column the frame
    * lacks raises `KeyError`. */
  function Assignments(row: Row, keys: seq<string>, kind: Kind): (r: Result<seq<Assignment>, PyError>)
    decreases |keys|
  {
    if |keys| == 0 then Success([])
    else
      var k := keys[|keys| - 1];
      var init :- Assignments(row, keys[..|keys| - 1], kind);
      if k !in row then Failure(KeyError(k))
      else
        match AssignmentOf(k, row[k], kind)
        case None => Success(init)
        case Some(a) => Success(init + [a])
  }

  /** The columns `keys` whose value is written, in order. */
  function Written(row: Row, keys: seq<string>, kind: Kind): seq<string>
    requires forall k :: k in keys ==> k in row
    decreases |keys|
  {
    if |keys| == 0 then []
    else
      var k := keys[|keys| - 1];
      Written(row, keys[..|keys| - 1], kind) + (if AssignmentOf(k, row[k], kind).Some? then [k] else [])
  }

  function KeysOf(xs: seq<Assignment>): (r: seq<string>)
    ensures |r| == |xs| && forall i :: 0 <= i < |xs| ==> r[i] == xs[i].key
  {
    if |xs| == 0 then [] else KeysOf(xs[..|xs| - 1]) + [xs[|xs| - 1].key]
  }

  /** The assignments succeed exactly when every column is in the frame. */
  lemma {:induction false} AssignmentsSucceed(row: Row, keys: seq<string>, kind: Kind)
    ensures Assignments(row, keys, kind).Success? <==> forall k :: k in keys ==> k in row
    decreases |keys|
  {
    if |keys| > 0 {
      var k := keys[|keys| - 1];
      var init := keys[..|keys| - 1];
      AssignmentsSucceed(row, init, kind);
      assert forall x :: x in keys <==> x in init || x == k;
    }
  }

  /** Then they are the written columns in order... */
  lemma {:induction false} AssignmentsKeys(row: Row, keys: seq<string>, kind: Kind)
    requires forall k :: k in keys ==> k in row
    ensures Assignments(row, keys, kind).Success?
    ensures KeysOf(Assignments(row, keys, kind).value) == Written(row, keys, kind)
    decreases |keys|
  {
    if |keys| > 0 {
      var k := keys[|keys| - 1];
      var init := keys[..|keys| - 1];
      assert forall x :: x in init ==> x in keys;
      AssignmentsKeys(row, init, kind);
      var xs := Assignments(row, init, kind).value;
      match AssignmentOf(k, row[k], kind)
      case None =>
      case Some(a) =>
        assert (xs + [a])[..|xs|] == xs;
    }
  }

  /** ...each with its value's assignment. */
  lemma {:induction false} AssignmentsValues(row: Row, keys: seq<string>, kind: Kind)
    requires Assignments(row, keys, kind).Success?
    ensures forall a :: a in Assignments(row, keys, kind).value ==> a.key in row && AssignmentOf(a.key, row[a.key], kind) == Some(a)
    decreases |keys|
  {
    if |keys| > 0 {
      AssignmentsValues(row, keys[..|keys| - 1], kind);
    }
  }

  /** The first missing column is the one reported. */
  lemma {:induction false} AssignmentsFailure(row: Row, keys: seq<string>, kind: Kind)
    requires Assignments(row, keys, kind).Failure?
    ensures exists i :: 0 <= i < |keys| && keys[i] !in row && Assignments(row, keys, kind).error == KeyError(keys[i]) &&
                        forall j :: 0 <= j < i ==> keys[j] in row
    decreases |keys|
  {
    var k := keys[|keys| - 1];
    var init := keys[..|keys| - 1];
    if Assignments(row, init, kind).Failure? {
      AssignmentsFailure(row, init, kind);
      var i :| 0 <= i < |init| && init[i] !in row && Assignments(row, init, kind).error == KeyError(init[i]) &&
               forall j :: 0 <= j < i ==> init[j] in row;
      assert keys[i] == init[i];
      assert forall j :: 0 <= j < i ==> keys[j] == init[j];
    } else {
      AssignmentsSucceed(row, init, kind);
      assert forall j :: 0 <= j < |keys| - 1 ==> keys[j] in init;
    }
  }

  function RhsText(rhs: Rhs): string
  {
    match rhs
    case Quoted(s) => "\"" + s + "\""
    case SplitList(s) => "SPLIT(\"" + s + "\",\";\")"
    case Bare(s) => s
  }

  function AssignmentText(v: string, a: Assignment): string
  {
    "," + v + "." + a.key + "= " + RhsText(a.rhs)
  }

  function Clauses(v: string, xs: seq<Assignment>): string
  {
    if |xs| == 0 then "" else Clauses(v, xs[..|xs| - 1]) + AssignmentText(v, xs[|xs| - 1])
  }

  /** `MERGE (<v>:<label> { ID:'<index>' }) SET <v>.source='Wikidata'`. */
  function Head(v: string, lab: string, index: string): string
  {
    "MERGE (" + v + ":" + lab + " { ID:'" + index + "' }) SET " + v + ".source='Wikidata'"
  }

  /** The columns of one kind of entity: quoted, `SPLIT` and coordinates. */
  datatype Columns = Columns(text: seq<string>, lists: seq<string>, numbers: seq<string>)

  const OrganizationColumns := Columns(
    ["Label", "Inception", "Official_website", "Phone_number", "E_mail", "Address", "Postal_code"],
    ["Aliases", "Descriptions", "Labels", "Official_name", "Employees", "Total_revenue", "Total_assets",
     "Net_profit", "Operating_income"],
    ["Latitude", "Longitude"])
  const ExpansionColumns := Columns(["Label"], ["Aliases", "Descriptions", "Labels"], [])
  const PersonColumns := Columns(
    ["Label", "Gender", "Name", "Date_of_Birth", "Erdos_Number"],
    ["Aliases", "Descriptions", "Labels", "Occupation"], [])
  const ProductColumns := Columns(["Label", "Inception", "License"], ["Aliases", "Descriptions", "Labels"], [])

  /** All the assignments of a row: the quoted columns, then the lists, then
    * the coordinates. */
  function RowAssignments(row: Row, cols: Columns): Result<seq<Assignment>, PyError>
  {
    var text :- Assignments(row, cols.text, AsText);
    var lists :- Assignments(row, cols.lists, AsList);
    var numbers :- Assignments(row, cols.numbers, AsNumber);
    Success(text + lists + numbers)
  }

  /** The statement of one entity row. */
  function EntityStatement(v: string, lab: string, index: string, row: Row, cols: Columns): Result<string, PyError>
  {
    var xs :- RowAssignments(row, cols);
    Success(Head(v, lab, index) + Clauses(v, xs))
  }

  /** A row's statement is built exactly when the frame has every column
    * of the entity's kind. */
  lemma EntityStatementSucceeds(v: string, lab: string, index: string, row: Row, cols: Columns)
    ensures EntityStatement(v, lab, index, row, cols).Success? <==>
            forall k :: k in cols.text + cols.lists + cols.numbers ==> k in row
  {
    AssignmentsSucceed(row, cols.text, AsText);
    AssignmentsSucceed(row, cols.lists, AsList);
    AssignmentsSucceed(row, cols.numbers, AsNumber);
  }

  /** The statements of the rows of a chunk, in order. */
  function EntityStatements(v: string, lab: string, df: Frame, cols: Columns): (r: seq<Result<string, PyError>>)
    ensures |r| == |df|
    ensures forall i :: 0 <= i < |df| ==> r[i] == EntityStatement(v, lab, df[i].0, df[i].1, cols)
  {
    seq(|df|, i requires 0 <= i < |df| => EntityStatement(v, lab, df[i].0, df[i].1, cols))
  }

  // ---- Links ---------------------------------------------------------------------------

  /** One link statement: the row's entity, the target (marked as coming from
    * Wikidata) and the edge typed by the upper-cased column. */
  function LinkStatement(source: string, index: string, lab: string, item: string, key: string): string
  {
    "MERGE (c:" + source + " { ID: '" + index + "'})" +
    " MERGE (n:" + lab + " { ID: '" + item + "' }) SET n.source='Wikidata'" +
    " MERGE (c) - [:" + Upper(key) + "] -> (n)"
  }

  function ItemStatements(source: string, index: string, lab: string, items: seq<string>, key: string): (r: seq<Result<string, PyError>>)
    ensures |r| == |items|
    ensures forall i :: 0 <= i < |items| ==> r[i] == Success(LinkStatement(source, index, lab, items[i], key))
  {
    seq(|items|, i requires 0 <= i < |items| => Success(LinkStatement(source, index, lab, items[i], key)))
  }

  /** For one link column and one target label: nothing for a missing value,
    * one statement per `;` item of a string, and the error of a column the
    * frame lacks or of a value that is not a string. */
  function LabelStatements(source: string, index: string, row: Row, key: string, lab: string): seq<Result<string, PyError>>
  {
    if key !in row then [Failure(KeyError(key))]
    else if row[key].Missing? then []
    else
      match SplitValue(row[key], ';')
      case Failure(e) => [Failure(e)]
      case Success(items) => ItemStatements(source, index, lab, items, key)
  }

  function LabelsStatements(source: string, index: string, row: Row, key: string, labels: seq<string>): seq<Result<string, PyError>>
  {
    if |labels| == 0 then []
    else LabelsStatements(source, index, row, key, labels[..|labels| - 1]) + LabelStatements(source, index, row, key, labels[|labels| - 1])
  }

  function KeysStatements(source: string, index: string, row: Row, links: seq<string>, labels: seq<string>): seq<Result<string, PyError>>
  {
    if |links| == 0 then []
    else KeysStatements(source, index, row, links[..|links| - 1], labels) + LabelsStatements(source, index, row, links[|links| - 1], labels)
  }

  /** `_create_node(tx, df, source, target)`: for each row, each link
    * column of the target, each of its labels, each item. */
  function LinkStatements(source: string, df: Frame, t: Target): seq<Result<string, PyError>>
  {
    if |df| == 0 then []
    else
      var last := df[|df| - 1];
      LinkStatements(source, df[..|df| - 1], t) + KeysStatements(source, last.0, last.1, t.links, t.labels)
  }

  /** The link statements for every target of a table, target by target. */
  function TableStatements(source: string, df: Frame, table: seq<Target>): seq<Result<string, PyError>>
  {
    if |table| == 0 then []
    else TableStatements(source, df, table[..|table| - 1]) + LinkStatements(source, df, table[|table| - 1])
  }

  /** `organization_nodes`, in its key order, with the frame's column names. */
  const OrganizationLinks: seq<Target> := [
    Target("Person", ["Person"], ["Founded_by", "Chief_executive_officer", "Director", "Chairperson", "Board_member"]),
    Target("Organization", ["Organization"],
           ["Owner_of", "Parent_organization", "Subsidiary", "Member_of", "Different_from", "Replaced_by", "Replaces"]),
    Target("Owner", ["Person", "Organization"], ["Owned_by"]),
    Target("StockExchange", ["StockExchange"], ["In_stock_exchange"]),
    Target("Group", ["Group"], ["Part_of"]),
    Target("Industry", ["Industry"], ["In_industry"]),
    Target("Grant", ["Grant"], ["Received_grant"]),
    Target("Location", ["Location"], ["Location_of_formation"]),
    Target("Country", ["Country"], ["Country"]),
    Target("Product", ["Product"], ["Produces"])
  ]

  /** `person_nodes`, in its key order. */
  const PersonLinks: seq<Target> := [
    Target("Organization", ["Organization"], ["Member_of"]),
    Target("Grant", ["Grant"], ["Received_grant"]),
    Target("Location", ["Location"], ["Place_of_Birth"]),
    Target("Country", ["Country"], ["Citizenship"])
  ]

  /** Every item of a present link column gives one statement per target
    * label, and the statement joins the row's entity to that item. */
  lemma LabelStatementsItems(source: string, index: string, row: Row, key: string, lab: string)
    requires key in row && row[key].Str?
    ensures LabelStatements(source, index, row, key, lab) ==
            ItemStatements(source, index, lab, Split(row[key].s, ';'), key)
  {
  }

  /** An `Owned_by` item gives two statements, the Person target first and
    * then the Organization target. */
  lemma OwnerItemsBothLabels(index: string, row: Row, item: string)
    requires "Owned_by" in row && row["Owned_by"] == Str(item) && ';' !in item
    ensures KeysStatements("Organization", index, row, OrganizationLinks[2].links, OrganizationLinks[2].labels) ==
            [Success(LinkStatement("Organization", index, "Person", item, "Owned_by")),
             Success(LinkStatement("Organization", index, "Organization", item, "Owned_by"))]
  {
    assert OrganizationLinks[2] == Target("Owner", ["Person", "Organization"], ["Owned_by"]);
    TwoLabelsOneItem("Organization", index, row, "Owned_by", "Person", "Organization", item);
  }

  /** One link column with two target labels and one item: a statement per label. */
  lemma TwoLabelsOneItem(source: string, index: string, row: Row, key: string, first: string, second: string, item: string)
    requires key in row && row[key] == Str(item) && ';' !in item
    ensures KeysStatements(source, index, row, [key], [first, second]) ==
            [Success(LinkStatement(source, index, first, item, key)), Success(LinkStatement(source, index, second, item, key))]
  {
    var labels := [first, second];
    OneItemStatements(source, index, row, key, first, item);
    OneItemStatements(source, index, row, key, second, item);
    assert labels[..1] == [first] && labels[..1][..0] == [];
    assert LabelsStatements(source, index, row, key, labels[..1]) == LabelStatements(source, index, row, key, first);
    assert [key][..0] == [];
  }

  /** A link column holding one item without a separator yields one statement. */
  lemma OneItemStatements(source: string, index: string, row: Row, key: string, lab: string, item: string)
    requires key in row && row[key] == Str(item) && ';' !in item
    ensures LabelStatements(source, index, row, key, lab) == [Success(LinkStatement(source, index, lab, item, key))]
  {
    SplitWithoutSeparator(item, ';');
  }

  // ---- The calls ----------------------------------------------------------------------

  /** `exec_query(2, df)`: the organization statements of the chunk, then the
    * link statements of every target. */
  function CompaniesStatements(df: Frame): seq<Result<string, PyError>>
  {
    EntityStatements("c", "Organization", df, OrganizationColumns) + TableStatements("Organization", df, OrganizationLinks)
  }

  /** `exec_query(5, df)` on the selected rows. */
  function PersonStatements(df: Frame): seq<Result<string, PyError>>
  {
    EntityStatements("c", "Person", df, PersonColumns) + TableStatements("Person", df, PersonLinks)
  }

  /** `df.loc[ids & set(df.index)]`, as `exec_query` selects the rows to
    * expand from the ids the database reports as not yet labelled. */
  function Selected(df: Frame, ids: set<string>): (r: Frame)
    ensures forall x :: x in r <==> x in df && x.0 in ids
  {
    if |df| == 0 then []
    else
      var rest := Selected(df[1..], ids);
      assert forall x :: x in df <==> x == df[0] || x in df[1..];
      if df[0].0 in ids then [df[0]] + rest else rest
  }

  /** The statements run with the ids found: only rows of the chunk that the
    * database still lacks a label for, and every such row. */
  lemma SelectedMeaning(df: Frame, ids: set<string>, index: string, row: Row)
    ensures (index, row) in Selected(df, ids) <==> (index, row) in df && index in ids
  {
  }

  /** `_clean_companies_onwer`: unlabelled Organizations that share an ID
    * with a Person go first, then unlabelled Persons that share an ID with
    * an Organization that is left. */
  const CleanOwnerStatements: seq<string> := [
    "MATCH (c:Organization), (p:Person) WHERE c.ID = p.ID AND NOT EXISTS(c.Label) DETACH DELETE(c)",
    "MATCH (c:Organization), (p:Person) WHERE c.ID = p.ID AND NOT EXISTS(p.Label) DETACH DELETE(p)"
  ]

  /** The loop of `_create_companies` (and of `_expand_node`,
    * `_create_person`, `_create_product`) for one row: the head, then each
    * kind of column in turn, one `+=` per written column. */
  method EntityQuery(v: string, lab: string, index: string, row: Row, cols: Columns) returns (r: Result<string, PyError>)
    ensures r == EntityStatement(v, lab, index, row, cols)
  {
    var query := Head(v, lab, index);
    var text := AppendColumns(v, row, cols.text, AsText);
    if text.Failure? {
      return Failure(text.error);
    }
    var lists := AppendColumns(v, row, cols.lists, AsList);
    if lists.Failure? {
      return Failure(lists.error);
    }
    var numbers := AppendColumns(v, row, cols.numbers, AsNumber);
    if numbers.Failure? {
      return Failure(numbers.error);
    }
    var t, l, n := text.value.1, lists.value.1, numbers.value.1;
    assert RowAssignments(row, cols) == Success(t + l + n);
    ClausesAppend(v, t, l);
    ClausesAppend(v, t + l, n);
    AppendAssoc(query, text.value.0, lists.value.0);
    AppendAssoc(query, text.value.0 + lists.value.0, numbers.value.0);
    return Success(query + text.value.0 + lists.value.0 + numbers.value.0);
  }

  /** One of the column loops: the text of the written columns, with the
    * assignments it stands for. */
  method AppendColumns(v: string, row: Row, keys: seq<string>, kind: Kind) returns (r: Result<(string, seq<Assignment>), PyError>)
    ensures r.Failure? ==> Assignments(row, keys, kind) == Failure(r.error)
    ensures r.Success? ==> Assignments(row, keys, kind) == Success(r.value.1)
    ensures r.Success? ==> r.value.0 == Clauses(v, r.value.1)
  {
    var text := "";
    var xs: seq<Assignment> := [];
    assert keys[..0] == [];
    var j := 0;
    while j < |keys|
      invariant 0 <= j <= |keys|
      invariant Assignments(row, keys[..j], kind) == Success(xs)
      invariant text == Clauses(v, xs)
    {
      var k := keys[j];
      if k !in row {
        AssignmentsNext(v, row, keys, j, kind, xs);
        AssignmentsStop(row, keys, j + 1, kind);
        return Failure(KeyError(k));
      }
      AssignmentsNext(v, row, keys, j, kind, xs);
      var a := AssignmentOf(k, row[k], kind);
      if a.Some? {
        text := text + AssignmentText(v, a.value);
        xs := xs + [a.value];
      }
      j := j + 1;
    }
    assert keys[..j] == keys;
    return Success((text, xs));
  }

  lemma AssignmentsNext(v: string, row: Row, keys: seq<string>, j: nat, kind: Kind, xs: seq<Assignment>)
    requires j < |keys| && Assignments(row, keys[..j], kind) == Success(xs)
    ensures keys[j] !in row ==> Assignments(row, keys[..j + 1], kind) == Failure(KeyError(keys[j]))
    ensures keys[j] in row ==>
              Assignments(row, keys[..j + 1], kind) ==
              Success(match AssignmentOf(keys[j], row[keys[j]], kind) case None => xs case Some(a) => xs + [a])
    ensures keys[j] in row && AssignmentOf(keys[j], row[keys[j]], kind).Some? ==>
              Clauses(v, xs + [AssignmentOf(keys[j], row[keys[j]], kind).value]) ==
              Clauses(v, xs) + AssignmentText(v, AssignmentOf(keys[j], row[keys[j]], kind).value)
  {
    assert keys[..j + 1][..j] == keys[..j];
    if keys[j] in row && AssignmentOf(keys[j], row[keys[j]], kind).Some? {
      assert (xs + [AssignmentOf(keys[j], row[keys[j]], kind).value])[..|xs|] == xs;
    }
  }

  lemma {:induction false} ClausesAppend(v: string, a: seq<Assignment>, b: seq<Assignment>)
    ensures Clauses(v, a + b) == Clauses(v, a) + Clauses(v, b)
    decreases |b|
  {
    if |b| == 0 {
      assert a + b == a;
    } else {
      var init := b[..|b| - 1];
      var last := AssignmentText(v, b[|b| - 1]);
      assert (a + b)[..|a + b| - 1] == a + init;
      assert (a + b)[|a + b| - 1] == b[|b| - 1];
      assert Clauses(v, a + b) == Clauses(v, a + init) + last;
      assert Clauses(v, b) == Clauses(v, init) + last;
      ClausesAppend(v, a, init);
      AppendAssoc(Clauses(v, a), Clauses(v, init), last);
    }
  }

  /** Once the columns up to `m` raised, the later ones do not matter. */
  lemma {:induction false} AssignmentsStop(row: Row, keys: seq<string>, m: nat, kind: Kind)
    requires m <= |keys| && Assignments(row, keys[..m], kind).Failure?
    ensures Assignments(row, keys, kind) == Assignments(row, keys[..m], kind)
    decreases |keys| - m
  {
    if m < |keys| {
      var k := |keys| - 1;
      assert keys[..k][..m] == keys[..m];
      AssignmentsStop(row, keys[..k], m, kind);
    } else {
      assert keys[..m] == keys;
    }
  }

  /** `_create_companies(tx, df)`: the statement of each row is built and
    * run in turn; then the link statements of each target run. */
  method CreateCompanies(session: Session, df: Frame) returns (failure: Option<PyError>)
    modifies session
    ensures session.sent == old(session.sent) + RunUntilError(CompaniesStatements(df), session.rejects).0
    ensures failure == RunUntilError(CompaniesStatements(df), session.rejects).1
  {
    failure := CreateThenLink(session, "c", "Organization", df, OrganizationColumns, TableStatements("Organization", df, OrganizationLinks));
  }

  /** `_create_person(tx, df)`, the same for the selected person rows. */
  method CreatePerson(session: Session, df: Frame) returns (failure: Option<PyError>)
    modifies session
    ensures session.sent == old(session.sent) + RunUntilError(PersonStatements(df), session.rejects).0
    ensures failure == RunUntilError(PersonStatements(df), session.rejects).1
  {
    failure := CreateThenLink(session, "c", "Person", df, PersonColumns, TableStatements("Person", df, PersonLinks));
  }

  /** The entity rows of a chunk, then the given link statements, in one
    * transaction. */
  method CreateThenLink(session: Session, v: string, lab: string, df: Frame, cols: Columns, links: seq<Result<string, PyError>>)
    returns (failure: Option<PyError>)
    modifies session
    ensures session.sent == old(session.sent) + RunUntilError(EntityStatements(v, lab, df, cols) + links, session.rejects).0
    ensures failure == RunUntilError(EntityStatements(v, lab, df, cols) + links, session.rejects).1
  {
    ghost var s0 := session.sent;
    ghost var first := RunUntilError(EntityStatements(v, lab, df, cols), session.rejects);
    ghost var second := RunUntilError(links, session.rejects);
    RunAppend(EntityStatements(v, lab, df, cols), links, session.rejects);
    failure := CreateEntities(session, v, lab, df, cols);
    if failure.Some? {
      return;
    }
    failure := session.RunAll(links);
    AppendAssoc(s0, first.0, second.0);
  }

  /** `_expand_node(tx, df, node)` on the rows `exec_query(3, df, node)`
    * selects: only the label, aliases, descriptions and labels. */
  method ExpandNode(session: Session, df: Frame, ids: set<string>, node: string) returns (failure: Option<PyError>)
    modifies session
    ensures session.sent == old(session.sent) + RunUntilError(EntityStatements("n", node, Selected(df, ids), ExpansionColumns), session.rejects).0
    ensures failure == RunUntilError(EntityStatements("n", node, Selected(df, ids), ExpansionColumns), session.rejects).1
  {
    failure := CreateEntities(session, "n", node, Selected(df, ids), ExpansionColumns);
  }

  /** `_create_product(tx, df)` on the rows `exec_query(6, df)` selects. */
  method CreateProduct(session: Session, df: Frame, ids: set<string>) returns (failure: Option<PyError>)
    modifies session
    ensures session.sent == old(session.sent) + RunUntilError(EntityStatements("c", "Product", Selected(df, ids), ProductColumns), session.rejects).0
    ensures failure == RunUntilError(EntityStatements("c", "Product", Selected(df, ids), ProductColumns), session.rejects).1
  {
    failure := CreateEntities(session, "c", "Product", Selected(df, ids), ProductColumns);
  }

  /** `_clean_companies_onwer(tx)`: the two deletions, in order. */
  method CleanCompaniesOwner(session: Session) returns (failure: Option<PyError>)
    modifies session
    ensures session.sent == old(session.sent) + RunUntilError([Success(CleanOwnerStatements[0]), Success(CleanOwnerStatements[1])], session.rejects).0
    ensures failure == RunUntilError([Success(CleanOwnerStatements[0]), Success(CleanOwnerStatements[1])], session.rejects).1
  {
    failure := session.RunAll([Success(CleanOwnerStatements[0]), Success(CleanOwnerStatements[1])]);
  }

  /** The row loop shared by the entity calls: each row's statement is built
    * and run; the first error ends the loop. */
  method CreateEntities(session: Session, v: string, lab: string, df: Frame, cols: Columns) returns (failure: Option<PyError>)
    modifies session
    ensures session.sent == old(session.sent) + RunUntilError(EntityStatements(v, lab, df, cols), session.rejects).0
    ensures failure == RunUntilError(EntityStatements(v, lab, df, cols), session.rejects).1
  {
    ghost var rs := EntityStatements(v, lab, df, cols);
    ghost var s0 := session.sent;
    ghost var out: seq<string> := [];
    assert rs[..0] == [];
    assert session.sent == s0 + out;
    var i := 0;
    while i < |df|
      invariant 0 <= i <= |df|
      invariant session.sent == s0 + out
      invariant RunUntilError(rs[..i], session.rejects) == (out, None)
    {
      RunNext(rs, i, session.rejects);
      var stmt := EntityQuery(v, lab, df[i].0, df[i].1, cols);
      if stmt.Failure? {
        RunStop(rs, i + 1, session.rejects);
        return Some(stmt.error);
      }
      var ok := session.Run(stmt.value);
      AppendAssoc(s0, out, [stmt.value]);
      out := out + [stmt.value];
      if !ok {
        RunStop(rs, i + 1, session.rejects);
        return Some(CypherSyntaxError(stmt.value));
      }
      i := i + 1;
    }
    assert rs[..i] == rs;
    return None;
  }
}
