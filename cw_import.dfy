// The Cypher importer for the CorpWatch tables (corpwatch/cw_import.py):
// each row of a chunk becomes one statement, written as the clauses the
// source appends one after another, and the statements of a chunk run in
// turn until the first error.
module CwImport {
  import opened Wrappers
  import opened Text
  import opened Values
  import opened Grouping
  import opened Neo4jImport

  // ---- Cells ----------------------------------------------------------------------------

  /** `re.sub("'", "\\'", s)`: every apostrophe gets a backslash. */
  function Apostrophes(s: string): (r: string)
    ensures forall i :: 0 <= i < |r| && r[i] == '\'' ==> i > 0 && r[i - 1] == '\\'
  {
    Escape(s, '\'')
  }

  /** Escaped text reads back as the original. */
  lemma ApostrophesRoundTrip(s: string)
    ensures Unescape(Apostrophes(s), '\'') == s
  {
    UnescapeEscapeChar(s, '\'');
  }

  /** `re.sub("'", "\\'", row[c])`: a column the frame lacks raises
    * `KeyError`, and a cell that is not a string (a number, or NaN when the
    * chunk was not filled) raises `TypeError`. */
  function EscapedCell(row: Row, c: string): (r: Result<string, PyError>)
    ensures r.Success? <==> c in row && row[c].Str?
    ensures r.Success? ==> r.value == Apostrophes(row[c].s)
  {
    if c !in row then Failure(KeyError(c))
    else if row[c].Str? then Success(Apostrophes(row[c].s))
    else Failure(TypeError("expected string or bytes-like object"))
  }

  /** `"{}".format(row[c])`. */
  function Formatted(row: Row, c: string): (r: Result<string, PyError>)
    ensures r.Success? <==> c in row
    ensures r.Success? ==> r.value == Format(row[c])
  {
    if c in row then Success(Format(row[c])) else Failure(KeyError(c))
  }

  /** `row[a] + "_" + row[b]`: only strings concatenate. */
  function JoinedCodes(row: Row, a: string, b: string): (r: Result<string, PyError>)
    ensures r.Success? <==> a in row && b in row && row[a].Str? && row[b].Str?
    ensures r.Success? ==> r.value == row[a].s + "_" + row[b].s
  {
    if a !in row then Failure(KeyError(a))
    else if !row[a].Str? then Failure(TypeError("unsupported operand type(s) for +"))
    else if b !in row then Failure(KeyError(b))
    else if !row[b].Str? then Failure(TypeError("can only concatenate str"))
    else Success(row[a].s + "_" + row[b].s)
  }

  /** `isNaN(row[a]) and isNaN(row[b])`, evaluated from the left: the
    * second column is read only when the first is missing. */
  function BothMissing(row: Row, a: string, b: string): (r: Result<bool, PyError>)
    ensures r.Success? <==> a in row && (IsNaN(row[a]) ==> b in row)
    ensures r.Success? ==> (r.value <==> IsNaN(row[a]) && IsNaN(row[b]))
  {
    if a !in row then Failure(KeyError(a))
    else if !IsNaN(row[a]) then Success(false)
    else if b !in row then Failure(KeyError(b))
    else Success(IsNaN(row[b]))
  }

  /** The statement the clauses make, in order. */
  function Statement(clauses: seq<string>): string
  {
    Join(clauses, "")
  }

  // ---- Statements -----------------------------------------------------------------------

  /** `_create_companies`: the Company, and the Industry with a `PART_OF`
    * edge unless both the SIC code and the industry name are missing. */
  function CompanyClauses(row: Row): Result<seq<string>, PyError>
  {
    var id :- Formatted(row, "cw_id");
    var year :- Formatted(row, "year");
    var cik :- Formatted(row, "cik");
    var irs :- Formatted(row, "irs_number");
    var parents :- Formatted(row, "num_parents");
    var children :- Formatted(row, "num_children");
    var top :- Formatted(row, "top_parent_id");
    var name :- Formatted(row, "company_name");
    var company := "MERGE (c:Company {cw_id: " + id + ", latest_year: " + year + ",cik: " + cik +
                   ", irs_number: " + irs + ", no_parents: " + parents + ", no_children: " + children +
                   ", top_parent: " + top + ", company_name: '" + name + "', source: 'Corpwatch'})";
    var none :- BothMissing(row, "sic_code", "industry_name");
    if none then Success([company])
    else Success([company, " MERGE (ind:Industry {sic_code: " + Format(row["sic_code"]) + " })",
                  " MERGE (c) - [:PART_OF] -> (ind)"])
  }

  /** The company statement has the Industry clauses exactly when the SIC
    * code or the industry name is present, and the edge goes from the
    * company to that industry. */
  lemma CompanyIndustry(row: Row)
    requires CompanyClauses(row).Success?
    ensures var cs := CompanyClauses(row).value;
            |cs| == 1 || |cs| == 3
    ensures var cs := CompanyClauses(row).value;
            |cs| == 3 <==> !(IsNaN(row["sic_code"]) && IsNaN(row["industry_name"]))
    ensures var cs := CompanyClauses(row).value;
            |cs| == 3 ==> cs[1] == " MERGE (ind:Industry {sic_code: " + Format(row["sic_code"]) + " })" &&
                          cs[2] == " MERGE (c) - [:PART_OF] -> (ind)"
  {
  }

  /** The company statement is built exactly when the row has its eight
    * columns and the SIC code, and the industry name too when the code is
    * missing. */
  lemma CompanySucceeds(row: Row)
    ensures CompanyClauses(row).Success? <==>
            (forall c :: c in ["cw_id", "year", "cik", "irs_number", "num_parents", "num_children", "top_parent_id", "company_name"] ==> c in row) &&
            "sic_code" in row && (IsNaN(row["sic_code"]) ==> "industry_name" in row)
  {
  }

  /** `_create_industries`: the Industry with its escaped name, its Sector,
    * and the `PART_OF` edge between them. */
  function IndustryClauses(row: Row): Result<seq<string>, PyError>
  {
    var name :- EscapedCell(row, "industry_name");
    var code :- Formatted(row, "sic_code");
    var sector :- Formatted(row, "sic_sector");
    Success(["MERGE (ind:Industry {sic_code: " + code + ", name:'" + name + "', source: 'Corpwatch'})",
             " MERGE (se:Sector {sic_sector: " + sector + "}) ",
             " MERGE (ind) - [:PART_OF] -> (se)"])
  }

  /** `_create_sectors`: the Sector with its escaped name, its escaped
    * SectorGroup, and the `PART_OF` edge between them. */
  function SectorClauses(row: Row): Result<seq<string>, PyError>
  {
    var name :- EscapedCell(row, "sector_name");
    var groupName :- EscapedCell(row, "sector_group_name");
    var sector :- Formatted(row, "sic_sector");
    var group :- Formatted(row, "sector_group");
    Success(["MERGE (se:Sector {sic_sector: " + sector + "}) SET se.name='" + name + "', se.source='Corpwatch'",
             "MERGE (sg:SectorGroup { name:'" + groupName + "', sector_group:" + group + ", source: 'Corpwatch'})",
             " MERGE (se) - [:PART_OF] -> (sg)"])
  }

  /** The names written by the industry and sector statements are the
    * escaped names, which read back as the table's names. */
  lemma NamesEscaped(row: Row)
    ensures IndustryClauses(row).Success? ==>
              row["industry_name"].Str? &&
              IndustryClauses(row).value[0] ==
                "MERGE (ind:Industry {sic_code: " + Format(row["sic_code"]) + ", name:'" + Apostrophes(row["industry_name"].s) +
                "', source: 'Corpwatch'})"
    ensures SectorClauses(row).Success? ==> row["sector_name"].Str? && row["sector_group_name"].Str?
    ensures IndustryClauses(row).Failure? <==>
              !("industry_name" in row && row["industry_name"].Str? && "sic_code" in row && "sic_sector" in row)
  {
  }

  /** `_create_countries`. */
  function CountryClauses(row: Row): Result<seq<string>, PyError>
  {
    var name :- EscapedCell(row, "country_name");
    var code :- Formatted(row, "country_code");
    var lat :- Formatted(row, "latitude");
    var lon :- Formatted(row, "longitude");
    Success(["MERGE (ct:Country {country_code:'" + code + "', name:'" + name + "', latitude:" + lat +
             ", longitude:" + lon + ", source: 'Corpwatch'})"])
  }

  /** The country statement is one clause, built exactly when the name is a
    * string and the code and coordinates exist; the name is read first, so
    * a missing or non-string name raises before anything else. */
  lemma CountryBuilt(row: Row)
    ensures CountryClauses(row).Success? <==>
              "country_name" in row && row["country_name"].Str? && "country_code" in row && "latitude" in row && "longitude" in row
    ensures CountryClauses(row).Success? ==> |CountryClauses(row).value| == 1
    ensures !("country_name" in row && row["country_name"].Str?) ==> CountryClauses(row) == EscapedCell(row, "country_name").PropagateFailure()
  {
  }

  /** `_create_subdivisions`: the Subdivision keyed by country code, `_` and
    * subdivision code, its Country, and the `IS_IN` edge. */
  function SubdivisionClauses(row: Row): Result<seq<string>, PyError>
  {
    var name :- EscapedCell(row, "subdivision_name");
    var key :- JoinedCodes(row, "country_code", "subdivision_code");
    var lat :- Formatted(row, "latitude");
    var lon :- Formatted(row, "longitude");
    var country :- Formatted(row, "country_code");
    Success([SubdivisionNode(key, name, lat, lon),
             " MERGE (ct:Country {country_code:'" + country + "'})",
             " MERGE (sd) - [:IS_IN] -> (ct)"])
  }

  /** The start of the pattern that finds or creates a subdivision. */
  function SubdivisionMerge(key: string): string
  {
    "MERGE (sd:Subdivision {subdivision_code:'" + key + "'"
  }

  /** The subdivision pattern with its properties. */
  function SubdivisionNode(key: string, name: string, lat: string, lon: string): (r: string)
    ensures StartsWith(r, SubdivisionMerge(key))
  {
    var rest := ", name:'" + name + "', latitude:" + lat + ", longitude:" + lon + ", source: 'Corpwatch'})";
    assert (SubdivisionMerge(key) + rest)[..|SubdivisionMerge(key)|] == SubdivisionMerge(key);
    SubdivisionMerge(key) + rest
  }

  /** A subdivision's key is its country code and subdivision code joined
    * by `_`, and it is attached to the country of that code. */
  lemma SubdivisionKey(row: Row)
    requires SubdivisionClauses(row).Success?
    ensures row["country_code"].Str? && row["subdivision_code"].Str?
    ensures var key := row["country_code"].s + "_" + row["subdivision_code"].s;
            var cs := SubdivisionClauses(row).value;
            |cs| == 3 && StartsWith(cs[0], SubdivisionMerge(key)) &&
            cs[1] == " MERGE (ct:Country {country_code:'" + row["country_code"].s + "'})" &&
            cs[2] == " MERGE (sd) - [:IS_IN] -> (ct)"
  {
  }

  /** One `CREATE` of a new Location node bound to `v`. */
  function LocationCreate(v: string, kind: string, street1: string, street2: string, city: string, state: string, postal: string): string
  {
    " CREATE (" + v + ":Location {type:'" + kind + "', street_1:'" + street1 + "', street_2:'" + street2 +
    "', city:'" + city + "', state:'" + state + "', postal_code:'" + postal + "', source: 'Corpwatch'})"
  }

  /** `_create_locations`: the Company, a new Location (created, never
    * merged), the `LOCATED_AT` edge, and the `IS_IN` edge to the
    * subdivision unless both codes are missing. */
  function LocationClauses(row: Row): Result<seq<string>, PyError>
  {
    var street1 :- EscapedCell(row, "street_1");
    var street2 :- EscapedCell(row, "street_2");
    var city :- EscapedCell(row, "city");
    var id :- Formatted(row, "cw_id");
    var kind :- Formatted(row, "type");
    var state :- Formatted(row, "state");
    var postal :- Formatted(row, "postal_code");
    var head := ["MERGE (c:Company {cw_id:" + id + "})",
                 LocationCreate("l", kind, street1, street2, city, state, postal),
                 " MERGE (c) - [:LOCATED_AT] -> (l)"];
    var none :- BothMissing(row, "country_code", "subdiv_code");
    if none then Success(head)
    else
      var key :- JoinedCodes(row, "country_code", "subdiv_code");
      Success(head + [" " + SubdivisionMerge(key) + "})", " MERGE (l) - [:IS_IN] -> (sd)"])
  }

  /** Every location is a new node linked to its company; it is linked to a
    * subdivision exactly when a code is present, and then to the one whose
    * key the subdivision statement gives to the same pair of codes. */
  lemma LocationShape(row: Row)
    requires LocationClauses(row).Success?
    ensures var cs := LocationClauses(row).value;
            |cs| >= 3 && row["street_1"].Str? && row["street_2"].Str? && row["city"].Str? &&
            cs[1] == LocationCreate("l", Format(row["type"]), Apostrophes(row["street_1"].s), Apostrophes(row["street_2"].s),
                                    Apostrophes(row["city"].s), Format(row["state"]), Format(row["postal_code"])) &&
            cs[2] == " MERGE (c) - [:LOCATED_AT] -> (l)"
  {
  }

  lemma LocationSubdivision(row: Row)
    requires LocationClauses(row).Success?
    ensures var cs := LocationClauses(row).value;
            |cs| == 5 <==> !(IsNaN(row["country_code"]) && IsNaN(row["subdiv_code"]))
    ensures var cs := LocationClauses(row).value;
            |cs| == 3 || |cs| == 5
    ensures var cs := LocationClauses(row).value;
            |cs| == 5 ==> row["country_code"].Str? && row["subdiv_code"].Str? &&
                          cs[3] == " " + SubdivisionMerge(row["country_code"].s + "_" + row["subdiv_code"].s) + "})" &&
                          cs[4] == " MERGE (l) - [:IS_IN] -> (sd)"
  {
  }

  /** `for key in row.keys(): if type(row[key]) is str: row[key] = re.sub(...)`:
    * every string cell escaped, everything else as it was. */
  function EscapeStrings(row: Row): (r: Row)
    ensures r.Keys == row.Keys
  {
    map k | k in row :: if row[k].Str? then Str(Apostrophes(row[k].s)) else row[k]
  }

  /** Each string cell of the escaped row reads back as the original, and
    * the other cells are untouched. */
  lemma EscapeStringsRoundTrip(row: Row, k: string)
    requires k in row
    ensures EscapeStrings(row)[k].Str? <==> row[k].Str?
    ensures row[k].Str? ==> Unescape(EscapeStrings(row)[k].s, '\'') == row[k].s
    ensures !row[k].Str? ==> EscapeStrings(row)[k] == row[k]
  {
    if row[k].Str? {
      ApostrophesRoundTrip(row[k].s);
    }
  }

  /** `_create_filers`: the Filer, and exactly two new Locations, the
    * business and the mail address, each linked with `LOCATED_AT`. */
  function FilerClauses(row: Row): Result<seq<string>, PyError>
  {
    var r := EscapeStrings(row);
    var id :- Formatted(r, "cw_id");
    var phone :- Formatted(r, "business_phone");
    var matchName :- Formatted(r, "match_name");
    var conformed :- Formatted(r, "conformed_name");
    var irs :- Formatted(r, "irs_number");
    var cik :- Formatted(r, "cik");
    var b1 :- Formatted(r, "business_street_1");
    var b2 :- Formatted(r, "business_street_2");
    var bCity :- Formatted(r, "business_city");
    var bState :- Formatted(r, "business_state");
    var bZip :- Formatted(r, "business_zip");
    var m1 :- Formatted(r, "mail_street_1");
    var m2 :- Formatted(r, "mail_street_2");
    var mCity :- Formatted(r, "mail_city");
    var mState :- Formatted(r, "mail_state");
    var mZip :- Formatted(r, "mail_zip");
    Success(["MERGE (f:Filer {cw_id:'" + id + "', business_phone:'" + phone + "', match_name: '" + matchName +
             "', conformed_name:'" + conformed + "', irs_number: '" + irs + "', cik: '" + cik + "' , source: 'Corpwatch'})",
             LocationCreate("l1", "business", b1, b2, bCity, bState, bZip),
             " MERGE (f) - [:LOCATED_AT] -> (l1)",
             LocationCreate("l2", "mail", m1, m2, mCity, mState, mZip),
             " MERGE (f) - [:LOCATED_AT] -> (l2)"])
  }

  /** A filer statement creates exactly two Locations, typed `business` and
    * `mail`, from the escaped cells. */
  lemma FilerLocations(row: Row)
    requires FilerClauses(row).Success?
    ensures var cs := FilerClauses(row).value;
            var r := EscapeStrings(row);
            |cs| == 5 &&
            cs[1] == LocationCreate("l1", "business", Format(r["business_street_1"]), Format(r["business_street_2"]),
                                    Format(r["business_city"]), Format(r["business_state"]), Format(r["business_zip"])) &&
            cs[3] == LocationCreate("l2", "mail", Format(r["mail_street_1"]), Format(r["mail_street_2"]),
                                    Format(r["mail_city"]), Format(r["mail_state"]), Format(r["mail_zip"]))
    ensures var cs := FilerClauses(row).value;
            cs[2] == " MERGE (f) - [:LOCATED_AT] -> (l1)" && cs[4] == " MERGE (f) - [:LOCATED_AT] -> (l2)"
  {
    var r := EscapeStrings(row);
    FilerColumns(row);
    assert FilerClauses(row).value[1..] ==
      [LocationCreate("l1", "business", Format(r["business_street_1"]), Format(r["business_street_2"]),
                      Format(r["business_city"]), Format(r["business_state"]), Format(r["business_zip"])),
       " MERGE (f) - [:LOCATED_AT] -> (l1)",
       LocationCreate("l2", "mail", Format(r["mail_street_1"]), Format(r["mail_street_2"]),
                      Format(r["mail_city"]), Format(r["mail_state"]), Format(r["mail_zip"])),
       " MERGE (f) - [:LOCATED_AT] -> (l2)"];
  }

  /** A filer statement is built only when every column it reads is there. */
  lemma FilerColumns(row: Row)
    requires FilerClauses(row).Success?
    ensures var r := EscapeStrings(row);
            "business_street_1" in r && "business_street_2" in r && "business_city" in r && "business_state" in r &&
            "business_zip" in r && "mail_street_1" in r && "mail_street_2" in r && "mail_city" in r &&
            "mail_state" in r && "mail_zip" in r
  {
  }

  /** `_create_relationships`: the `FILED` edge from the filer to the
    * company, and the `PARENT` edge when the parent is present. */
  function RelationshipClauses(row: Row): Result<seq<string>, PyError>
  {
    var filer :- Formatted(row, "filer_cik");
    var id :- Formatted(row, "cw_id");
    var filing :- Formatted(row, "filing_id");
    var filed := ["MERGE (f:Filer {cik:" + filer + "})", " MERGE (c1:Company {cw_id:" + id + "})",
                  " MERGE (f) - [:FILED {id: " + filing + "}] -> (c1)"];
    if "parent_cw_id" !in row then Failure(KeyError("parent_cw_id"))
    else if IsNaN(row["parent_cw_id"]) then Success(filed)
    else Success(filed + [" MERGE (c2:Company {cw_id:" + Format(row["parent_cw_id"]) + "})",
                          " MERGE (c2) - [:PARENT {filing_id: " + filing + "}] -> (c1)"])
  }

  /** The `FILED` edge is always there; the `PARENT` edge, with the same
    * filing id, exactly when the parent is present. */
  lemma RelationshipEdges(row: Row)
    requires RelationshipClauses(row).Success?
    ensures var cs := RelationshipClauses(row).value;
            |cs| >= 3 && cs[2] == " MERGE (f) - [:FILED {id: " + Format(row["filing_id"]) + "}] -> (c1)"
    ensures var cs := RelationshipClauses(row).value;
            |cs| == 5 <==> !IsNaN(row["parent_cw_id"])
    ensures var cs := RelationshipClauses(row).value;
            |cs| == 3 || |cs| == 5
    ensures var cs := RelationshipClauses(row).value;
            |cs| == 5 ==> cs[4] == " MERGE (c2) - [:PARENT {filing_id: " + Format(row["filing_id"]) + "}] -> (c1)"
  {
  }

  /** The statements of a chunk, row by row. */
  function RowStatements(df: Frame, clauses: Row -> Result<seq<string>, PyError>): (r: seq<Result<string, PyError>>)
    ensures |r| == |df|
    ensures forall i :: 0 <= i < |df| && clauses(df[i].1).Success? ==> r[i] == Success(Statement(clauses(df[i].1).value))
    ensures forall i :: 0 <= i < |df| && clauses(df[i].1).Failure? ==> r[i] == Failure(clauses(df[i].1).error)
  {
    seq(|df|, i requires 0 <= i < |df| =>
      match clauses(df[i].1)
      case Success(cs) => Success(Statement(cs))
      case Failure(e) => Failure(e))
  }

  // ---- Country aliases ----------------------------------------------------------------

  /** `';'.join(x)`: only strings join. */
  function JoinNames(names: seq<Value>): (r: Result<string, PyError>)
    ensures r.Success? <==> forall i :: 0 <= i < |names| ==> names[i].Str?
  {
    if |names| == 0 then Success("")
    else if !names[0].Str? then Failure(TypeError("sequence item: expected str instance"))
    else
      var rest :- JoinNames(names[1..]);
      Success(if |names| == 1 then names[0].s else names[0].s + ";" + rest)
  }

  function Strings(names: seq<Value>): (r: seq<string>)
    requires forall i :: 0 <= i < |names| ==> names[i].Str?
    ensures |r| == |names| && forall i :: 0 <= i < |names| ==> r[i] == names[i].s
  {
    if |names| == 0 then [] else [names[0].s] + Strings(names[1..])
  }

  /** The joined names are the names with `;` between them. */
  lemma {:induction false} JoinNamesMeaning(names: seq<Value>)
    requires forall i :: 0 <= i < |names| ==> names[i].Str?
    ensures JoinNames(names) == Success(Join(Strings(names), ";"))
    decreases |names|
  {
    if |names| > 1 {
      JoinNamesMeaning(names[1..]);
      JoinCons(names[0].s, Strings(names[1..]), ";");
      assert Strings(names) == [names[0].s] + Strings(names[1..]);
    }
  }

  /** The aggregated rows: one per country code, its names joined by `;`.
    * The whole aggregation runs before the first statement, so one bad
    * group stops the call before anything is sent. */
  function AliasRows(groups: seq<(Value, seq<Value>)>): (r: Result<seq<(Value, string)>, PyError>)
    ensures r.Success? ==> |r.value| == |groups|
    ensures r.Success? ==> forall i :: 0 <= i < |groups| ==> r.value[i].0 == groups[i].0 && JoinNames(groups[i].1) == Success(r.value[i].1)
  {
    if |groups| == 0 then Success([])
    else
      var names :- JoinNames(groups[0].1);
      var rest :- AliasRows(groups[1..]);
      Success([(groups[0].0, names)] + rest)
  }

  /** The alias statement of one country: set only when the Country node
    * already exists (`ON MATCH`). */
  function AliasStatement(code: Value, names: string): string
  {
    " MERGE (ct:Country {country_code:'" + Format(code) + "'}) ON MATCH SET ct.alias=split('" + Apostrophes(names) + "',';')"
  }

  /** `_create_countries_aliases`: the grouping, then one statement per
    * country code in the order the groups are listed. */
  function AliasStatements(df: Frame): (r: Result<seq<string>, PyError>)
  {
    var groups :- GroupRows(df, "country_code", "country_name");
    var rows :- AliasRows(groups);
    Success(seq(|rows|, i requires 0 <= i < |rows| => AliasStatement(rows[i].0, rows[i].1)))
  }

  /** One alias statement per distinct present country code, and it holds
    * all the names of that code's rows, in row order. */
  lemma AliasStatementsMeaning(df: Frame, i: nat)
    requires AliasStatements(df).Success?
    requires i < |AliasStatements(df).value|
    ensures var groups := GroupRows(df, "country_code", "country_name").value;
            var pairs := KeyValuePairs(df, "country_code", "country_name").value;
            i < |groups| && !IsNaN(groups[i].0) && groups[i].1 == ValuesOf(pairs, groups[i].0) &&
            (forall j :: 0 <= j < |groups[i].1| ==> groups[i].1[j].Str?) &&
            AliasStatements(df).value[i] == AliasStatement(groups[i].0, Join(Strings(groups[i].1), ";"))
  {
    var groups := GroupRows(df, "country_code", "country_name").value;
    JoinNamesMeaning(groups[i].1);
  }

  // ---- The calls ------------------------------------------------------------------------

  /** `_constraint_graph`: the uniqueness constraints and the Location index. */
  const ConstraintStatements: seq<string> := [
    "CREATE CONSTRAINT ON (c:Company) ASSERT c.cw_id IS UNIQUE",
    "CREATE CONSTRAINT ON (sg:SectorGroup) ASSERT sg.sector_group IS UNIQUE",
    "CREATE CONSTRAINT ON (se:Sector) ASSERT se.sic_sector IS UNIQUE",
    "CREATE CONSTRAINT ON (ind:Industry)ASSERT ind.sic_code IS UNIQUE",
    "CREATE CONSTRAINT ON (ct:Country)ASSERT ct.country_code IS UNIQUE",
    "CREATE CONSTRAINT ON (sd:Subdivision)ASSERT sd.subdivision_code IS UNIQUE",
    "CREATE INDEX ON :Location(type)",
    "CREATE CONSTRAINT ON (f:Filer) ASSERT f.cik IS UNIQUE"
  ]

  function AllSucceed(qs: seq<string>): (r: seq<Result<string, PyError>>)
    ensures |r| == |qs| && forall i :: 0 <= i < |qs| ==> r[i] == Success(qs[i])
  {
    seq(|qs|, i requires 0 <= i < |qs| => Success(qs[i]))
  }

  /** `exec_query(choice, df)` for the row-by-row calls: each row's
    * statement is built and run in turn, and the first error ends the
    * call. */
  method CreateRows(session: Session, df: Frame, clauses: Row -> Result<seq<string>, PyError>) returns (failure: Option<PyError>)
    modifies session
    ensures session.sent == old(session.sent) + RunUntilError(RowStatements(df, clauses), session.rejects).0
    ensures failure == RunUntilError(RowStatements(df, clauses), session.rejects).1
  {
    failure := session.RunAll(RowStatements(df, clauses));
  }

  /** `exec_query(0)`. */
  method CreateConstraints(session: Session) returns (failure: Option<PyError>)
    modifies session
    ensures session.sent == old(session.sent) + RunUntilError(AllSucceed(ConstraintStatements), session.rejects).0
    ensures failure == RunUntilError(AllSucceed(ConstraintStatements), session.rejects).1
  {
    failure := session.RunAll(AllSucceed(ConstraintStatements));
  }

  /** `exec_query(6, df)`: nothing is sent when the aggregation raises. */
  method CreateCountriesAliases(session: Session, df: Frame) returns (failure: Option<PyError>)
    modifies session
    ensures AliasStatements(df).Failure? ==> session.sent == old(session.sent) && failure == Some(AliasStatements(df).error)
    ensures AliasStatements(df).Success? ==>
              session.sent == old(session.sent) + RunUntilError(AllSucceed(AliasStatements(df).value), session.rejects).0 &&
              failure == RunUntilError(AllSucceed(AliasStatements(df).value), session.rejects).1
  {
    var statements := AliasStatements(df);
    if statements.Failure? {
      return Some(statements.error);
    }
    failure := session.RunAll(AllSucceed(statements.value));
  }
}
