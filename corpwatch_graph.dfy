// The CorpWatch property-graph builder: companies, the SIC industry /
// sector / sector-group hierarchy, countries and their subdivisions,
// locations, SEC filers and the filing relationships become nodes keyed
// `CW_<kind>_<id>` and PART_OF / IS_IN / LOCATED_AT / FILED / PARENT edges.
module CorpwatchGraph {
  import opened Wrappers
  import opened Text
  import opened Values
  import opened OrderedDicts
  import opened Graphs
  import opened RowCalls
  import opened Grouping
  import opened GraphStatistics
  import opened GraphmlCleaning

  const Source := "Corpwatch"

  // ---- Keys --------------------------------------------------------------------

  const CompanyPrefix := "CW_C_"
  const IndustryPrefix := "CW_I_"
  const SectorPrefix := "CW_S_"
  const SectorGroupPrefix := "CW_SG_"
  const CountryPrefix := "CW_CT_"
  const SubdivisionPrefix := "CW_SD_"
  const LocationPrefix := "CW_L_"
  const FilerPrefix := "CW_F_"

  // ---- Rows --------------------------------------------------------------------

  const CompanyFields: seq<Field> := [
    Col("cw_id", "cw_id"), Fixed("nlabel", Str("Company")), Col("latest_year", "year"), Col("cik", "cik"),
    Col("irs_number", "irs_number"), Col("no_parents", "num_parents"), Col("no_children", "num_children"),
    Col("top_parent", "top_parent_id"), Col("company_name", "company_name"), Fixed("source", Str(Source))]

  /** `create_companies`, one row: the company, and, when `sic_code` is
    * present, the industry stub keyed by `int(sic_code)` with a PART_OF
    * edge to it. */
  function CompanyStep(row: Row): Step
  {
    Call(NodeCall(row, CompanyPrefix, [Plain("cw_id")], CompanyFields), UnlessMissing(row, "sic_code", IndustryLink(row)))
  }

  /** The industry part of a company row. */
  function IndustryLink(row: Row): Step
  {
    NodeAndEdge(row, IndustryPrefix, [AsInt("sic_code")], Tag("Industry", Source),
                CompanyPrefix, [Plain("cw_id")], IndustryPrefix, [AsInt("sic_code")], Rel("PART_OF", Source))
  }

  const IndustryFields: seq<Field> :=
    [Col("sic_code", "sic_code"), Fixed("nlabel", Str("Industry")), Col("name", "industry_name"), Fixed("source", Str(Source))]

  /** `create_industries`, one row: the industry, its sector stub and the
    * PART_OF edge between them. */
  function IndustryStep(row: Row): Step
  {
    Linked(row, IndustryPrefix, [Plain("sic_code")], IndustryFields,
           SectorPrefix, [Plain("sic_sector")], Tag("Sector", Source), Rel("PART_OF", Source))
  }

  const SectorFields: seq<Field> :=
    [Fixed("nlabel", Str("Sector")), Col("sic_sector", "sic_sector"), Col("name", "sector_name"), Fixed("source", Str(Source))]

  const SectorGroupFields: seq<Field> :=
    [Fixed("nlabel", Str("SectorGroup")), Col("name", "sector_group_name"), Col("sector_group", "sector_group"),
     Fixed("source", Str(Source))]

  /** `create_sectors`, one row: the sector, its group and the PART_OF edge. */
  function SectorStep(row: Row): Step
  {
    Linked(row, SectorPrefix, [Plain("sic_sector")], SectorFields,
           SectorGroupPrefix, [Plain("sector_group")], SectorGroupFields, Rel("PART_OF", Source))
  }

  const CountryFields: seq<Field> :=
    [Fixed("nlabel", Str("Country")), Col("country_code", "country_code"), Col("country_name", "country_name"),
     Col("latitude", "latitude"), Col("longitude", "longitude"), Fixed("source", Str(Source))]

  /** `create_countries`, one row. */
  function CountryStep(row: Row): Step
  {
    Call(NodeCall(row, CountryPrefix, [Plain("country_code")], CountryFields), Do([]))
  }

  const SubdivisionParts: seq<KeyPart> := [Plain("country_code"), Plain("subdivision_code")]

  const SubdivisionFields: seq<Field> :=
    [Fixed("nlabel", Str("Subdivision")), Formatted("subdivision_code", SubdivisionParts),
     Col("name", "subdivision_name"), Col("latitude", "latitude"), Col("longitude", "longitude"),
     Fixed("source", Str(Source))]

  /** `create_subdivisions`, one row: the subdivision keyed by country and
    * subdivision code, the country stub and the IS_IN edge. */
  function SubdivisionStep(row: Row): Step
  {
    Linked(row, SubdivisionPrefix, SubdivisionParts, SubdivisionFields,
           CountryPrefix, [Plain("country_code")], Tag("Country", Source), Rel("IS_IN", Source))
  }

  /** The alias value of one country: the set of its names. */
  function AliasSet(names: seq<Value>): (v: Value)
    ensures v.Set?
    ensures forall x :: x in v.items <==> exists i :: 0 <= i < |names| && Format(names[i]) == x
    ensures forall i, j :: 0 <= i < j < |v.items| ==> v.items[i] != v.items[j]
  {
    var r := Set(Distinct(Formats(names)));
    assert forall x :: x in Formats(names) <==> exists i :: 0 <= i < |names| && Format(names[i]) == x by {
      forall x | x in Formats(names)
        ensures exists i :: 0 <= i < |names| && Format(names[i]) == x
      {
        var i :| 0 <= i < |Formats(names)| && Formats(names)[i] == x;
        assert Format(names[i]) == x;
      }
    }
    r
  }

  function Formats(vs: seq<Value>): (r: seq<string>)
    ensures |r| == |vs| && forall i :: 0 <= i < |vs| ==> r[i] == Format(vs[i])
  {
    seq(|vs|, i requires 0 <= i < |vs| => Format(vs[i]))
  }

  /** One aliases row: `alias` on the country, unless the set is NaN, which
    * a set never is. */
  function AliasStep(countryCode: Value, names: seq<Value>): Step
  {
    var alias := AliasSet(names);
    if IsNaN(alias) then Do([])
    else Do([AddNodeOp(CountryPrefix + Format(countryCode), [("alias", alias)])])
  }

  function AliasSteps(groups: seq<(Value, seq<Value>)>): (r: seq<Step>)
    ensures |r| == |groups| && forall i :: 0 <= i < |groups| ==> r[i] == AliasStep(groups[i].0, groups[i].1)
  {
    seq(|groups|, i requires 0 <= i < |groups| => AliasStep(groups[i].0, groups[i].1))
  }

  /** `__find_coords(row, prefix)`: the coordinates when the frame has a
    * latitude column, NaN twice otherwise. */
  function FindCoords(row: Row, prefix: string): (r: Result<(Value, Value), PyError>)
    ensures prefix + "latitude" !in row ==> r == Success((Missing, Missing))
    ensures prefix + "latitude" in row ==>
              (r.Success? <==> prefix + "longitude" in row) &&
              (r.Success? ==> r.value == (row[prefix + "latitude"], row[prefix + "longitude"]))
  {
    if prefix + "latitude" in row then
      var long :- Cell(row, prefix + "longitude");
      Success((row[prefix + "latitude"], long))
    else Success((Missing, Missing))
  }

  function LocationFields(prefix: string, zip: string, lat: Value, long: Value): seq<Field>
  {
    [Fixed("nlabel", Str("Location")), Col("street_1", prefix + "street_1"), Col("street_2", prefix + "street_2"),
     Col("city", prefix + "city"), Col("state", prefix + "state"), Col("postal_code", prefix + zip),
     Fixed("latitude", lat), Fixed("longitude", long), Fixed("source", Str(Source))]
  }

  const LocatedSubdivision: seq<KeyPart> := [Plain("country_code"), Plain("subdiv_code")]

  /** The IS_IN part of a location row: `not(isNaN(cc) and isNaN(sd))`,
    * where `sd` is read only when `cc` is missing. */
  function LocationInSubdivision(row: Row): Step
  {
    var link := NodeAndEdge(row, SubdivisionPrefix, LocatedSubdivision, Tag("Subdivision", Source),
                            LocationPrefix, [Plain("street_1")], SubdivisionPrefix, LocatedSubdivision, Rel("IS_IN", Source));
    match Cell(row, "country_code")
    case Failure(e) => Raise(e)
    case Success(cc) =>
      if !IsNaN(cc) then link
      else
        match Cell(row, "subdiv_code")
        case Failure(e) => Raise(e)
        case Success(sd) => if IsNaN(sd) then Do([]) else link
  }

  const LocatedAt: seq<Field> := [Fixed("elabel", Str("LOCATED_AT")), Col("type", "type"), Fixed("source", Str(Source))]

  /** `create_locations`, one row: the location keyed by its street, the
    * company stub, the LOCATED_AT edge from location to company carrying
    * the location type, then the IS_IN edge. */
  function LocationStep(row: Row): Step
  {
    match FindCoords(row, "")
    case Failure(e) => Raise(e)
    case Success((lat, long)) =>
      Then(Linked(row, LocationPrefix, [Plain("street_1")], LocationFields("", "postal_code", lat, long),
                  CompanyPrefix, [Plain("cw_id")], Tag("Company", Source), LocatedAt),
           LocationInSubdivision(row))
  }

  const FilerFields: seq<Field> :=
    [Fixed("nlabel", Str("Filer")), Col("cik", "cik"), Col("cw_id", "cw_id"), Col("business_phone", "business_phone"),
     Col("match_name", "match_name"), Col("conformed_name", "conformed_name"), Col("irs_number", "irs_number"),
     Fixed("source", Str(Source))]

  /** A filer's business or mail location (`kind` is "business" or "mail",
    * the columns are prefixed by `kind_`) and its LOCATED_AT edge. */
  function FilerLocation(row: Row, kind: string): Step
  {
    var prefix := kind + "_";
    match FindCoords(row, prefix)
    case Failure(e) => Raise(e)
    case Success((lat, long)) =>
      NodeAndEdge(row, LocationPrefix, [Plain(prefix + "street_1")], LocationFields(prefix, "zip", lat, long),
                  FilerPrefix, [Plain("cik")], LocationPrefix, [Plain(prefix + "street_1")],
                  [Fixed("elabel", Str("LOCATED_AT")), Fixed("type", Str(kind)), Fixed("source", Str(Source))])
  }

  /** `create_filers`, one row: the filer, then each location whose street
    * is present. */
  function FilerStep(row: Row): Step
  {
    Call(NodeCall(row, FilerPrefix, [Plain("cik")], FilerFields),
      Then(UnlessMissing(row, "business_street_1", FilerLocation(row, "business")),
           UnlessMissing(row, "mail_street_1", FilerLocation(row, "mail"))))
  }

  /** `create_relationships`, one row: the FILED edge from the filer (keyed
    * by `int(filer_cik)`) to the company, and the PARENT edge from the
    * parent when there is one. */
  function RelationshipStep(row: Row): Step
  {
    Then(Linked(row, FilerPrefix, [AsInt("filer_cik")], Tag("Filer", Source), CompanyPrefix, [Plain("cw_id")],
                Tag("Company", Source), FiledFields),
         UnlessMissing(row, "parent_cw_id", ParentLink(row)))
  }

  const FiledFields: seq<Field> := [Fixed("elabel", Str("FILED")), Col("filing_id", "filing_id"), Fixed("source", Str(Source))]
  const ParentFields: seq<Field> := [Fixed("elabel", Str("PARENT")), Col("filing_id", "filing_id"), Fixed("source", Str(Source))]

  /** The parent company stub and the PARENT edge from it to the child. */
  function ParentLink(row: Row): Step
  {
    NodeAndEdge(row, CompanyPrefix, [Plain("parent_cw_id")], Tag("Company", Source),
                CompanyPrefix, [Plain("parent_cw_id")], CompanyPrefix, [Plain("cw_id")], ParentFields)
  }

  // ---- The importer ------------------------------------------------------------

  class Importer {
    const graph: PropertyGraph
    /** The cached statistics counters. */
    const stats: StatisticsCache

    ghost predicate Valid()
      reads this, graph
    {
      graph.Valid()
    }

    constructor ()
      ensures Valid() && fresh(graph) && fresh(stats)
      ensures graph.State() == EmptyGraph() && stats.noNodes.None? && stats.noEdges.None?
    {
      graph := new PropertyGraph();
      stats := new StatisticsCache();
    }

    method CreateCompanies(df: Frame) returns (failure: Option<PyError>)
      requires Valid()
      modifies graph
      ensures Valid()
      ensures (graph.State(), failure) == Ingest(old(graph.State()), EachRow(df, CompanyStep))
    {
      failure := graph.Run(EachRow(df, CompanyStep));
    }

    method CreateIndustries(df: Frame) returns (failure: Option<PyError>)
      requires Valid()
      modifies graph
      ensures Valid()
      ensures (graph.State(), failure) == Ingest(old(graph.State()), EachRow(df, IndustryStep))
    {
      failure := graph.Run(EachRow(df, IndustryStep));
    }

    method CreateSectors(df: Frame) returns (failure: Option<PyError>)
      requires Valid()
      modifies graph
      ensures Valid()
      ensures (graph.State(), failure) == Ingest(old(graph.State()), EachRow(df, SectorStep))
    {
      failure := graph.Run(EachRow(df, SectorStep));
    }

    method CreateCountries(df: Frame) returns (failure: Option<PyError>)
      requires Valid()
      modifies graph
      ensures Valid()
      ensures (graph.State(), failure) == Ingest(old(graph.State()), EachRow(df, CountryStep))
    {
      failure := graph.Run(EachRow(df, CountryStep));
    }

    method CreateSubdivisions(df: Frame) returns (failure: Option<PyError>)
      requires Valid()
      modifies graph
      ensures Valid()
      ensures (graph.State(), failure) == Ingest(old(graph.State()), EachRow(df, SubdivisionStep))
    {
      failure := graph.Run(EachRow(df, SubdivisionStep));
    }

    /** `create_countries_aliases`: one `alias` per country code, after the
      * grouping; a missing column raises before any change. */
    method CreateCountriesAliases(df: Frame) returns (failure: Option<PyError>)
      requires Valid()
      modifies graph
      ensures Valid()
      ensures GroupRows(df, "country_code", "country_name").Failure? ==>
                failure == Some(GroupRows(df, "country_code", "country_name").error) &&
                graph.State() == old(graph.State())
      ensures GroupRows(df, "country_code", "country_name").Success? ==>
                (graph.State(), failure) ==
                Ingest(old(graph.State()), AliasSteps(GroupRows(df, "country_code", "country_name").value))
    {
      var groups := GroupRows(df, "country_code", "country_name");
      if groups.Failure? {
        return Some(groups.error);
      }
      failure := graph.Run(AliasSteps(groups.value));
    }

    method CreateLocations(df: Frame) returns (failure: Option<PyError>)
      requires Valid()
      modifies graph
      ensures Valid()
      ensures (graph.State(), failure) == Ingest(old(graph.State()), EachRow(df, LocationStep))
    {
      failure := graph.Run(EachRow(df, LocationStep));
    }

    method CreateFilers(df: Frame) returns (failure: Option<PyError>)
      requires Valid()
      modifies graph
      ensures Valid()
      ensures (graph.State(), failure) == Ingest(old(graph.State()), EachRow(df, FilerStep))
    {
      failure := graph.Run(EachRow(df, FilerStep));
    }

    method CreateRelationships(df: Frame) returns (failure: Option<PyError>)
      requires Valid()
      modifies graph
      ensures Valid()
      ensures (graph.State(), failure) == Ingest(old(graph.State()), EachRow(df, RelationshipStep))
    {
      failure := graph.Run(EachRow(df, RelationshipStep));
    }

    /** `export(path, format)`: only the GraphML format changes the graph,
      * by the cleaning that precedes the writer. */
    method Export(format: string)
      requires Valid()
      modifies graph
      ensures Valid()
      ensures graph.State() == if format == "graphml" then SafeGraph(old(graph.State())) else old(graph.State())
    {
      if format == "graphml" {
        CleanForGraphml(graph);
      }
    }
  }
}
