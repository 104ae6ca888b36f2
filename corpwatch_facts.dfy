// What one row of each CorpWatch table does to the graph, and how rows of
// different tables meet on the same keys.
module CorpwatchFacts {
  import opened Wrappers
  import opened Text
  import opened Values
  import opened OrderedDicts
  import opened Graphs
  import opened RowCalls
  import opened Grouping
  import opened CorpwatchGraph

  function CompanyKey(id: Value): string { CompanyPrefix + Format(id) }
  function IndustryKey(sic: int): string { IndustryPrefix + IntToString(sic) }

  /** `{elabel: <label>, source: 'Corpwatch'}`. */
  function Relation(elabel: string): map<string, Value>
  {
    map["elabel" := Str(elabel), "source" := Str(Source)]
  }

  lemma CompanyFieldsApart()
    ensures NamesApart(CompanyFields)
  {
  }

  lemma CompanyKeyOf(row: Row)
    requires "cw_id" in row
    ensures KeyOf(row, CompanyPrefix, [Plain("cw_id")]) == Success(CompanyKey(row["cw_id"]))
  {
    KeyOfOne(row, CompanyPrefix, Plain("cw_id"));
  }

  lemma IndustryKeyOf(row: Row)
    requires "sic_code" in row && ToInt(row["sic_code"]).Success?
    ensures KeyOf(row, IndustryPrefix, [AsInt("sic_code")]) == Success(IndustryKey(ToInt(row["sic_code"]).value))
  {
    KeyOfOne(row, IndustryPrefix, AsInt("sic_code"));
  }

  lemma CompanyIndustryApart(a: string, b: string)
    ensures CompanyPrefix + a != IndustryPrefix + b
  {
    PrefixesApart(CompanyPrefix, IndustryPrefix, a, b, 3);
  }

  lemma IndustryLinkOps(row: Row)
    requires "cw_id" in row && "sic_code" in row
    ensures ToInt(row["sic_code"]).Failure? ==> IndustryLink(row).failure.Some?
    ensures ToInt(row["sic_code"]).Success? ==>
              var ind := IndustryKey(ToInt(row["sic_code"]).value);
              IndustryLink(row) == Do([AddNodeOp(ind, [("nlabel", Str("Industry")), ("source", Str(Source))]),
                                      AddEdgeOp(CompanyKey(row["cw_id"]), ind, [("elabel", Str("PART_OF")), ("source", Str(Source))])])
  {
    NodeAndEdgeOps(row, IndustryPrefix, [AsInt("sic_code")], Tag("Industry", Source),
                   CompanyPrefix, [Plain("cw_id")], IndustryPrefix, [AsInt("sic_code")], Rel("PART_OF", Source));
    if ToInt(row["sic_code"]).Success? {
      IndustryLinkSucceeds(row);
    } else {
      KeyOfOneIff(row, IndustryPrefix, AsInt("sic_code"));
    }
  }

  lemma IndustryLinkSucceeds(row: Row)
    requires "cw_id" in row && "sic_code" in row && ToInt(row["sic_code"]).Success?
    ensures var ind := IndustryKey(ToInt(row["sic_code"]).value);
            IndustryLink(row) == Do([AddNodeOp(ind, [("nlabel", Str("Industry")), ("source", Str(Source))]),
                                    AddEdgeOp(CompanyKey(row["cw_id"]), ind, [("elabel", Str("PART_OF")), ("source", Str(Source))])])
  {
    CompanyKeyOf(row);
    TagAttrs(row, "Industry", Source);
    RelAttrs(row, "PART_OF", Source);
    IndustryKeyOf(row);
    NodeAndEdgeOps(row, IndustryPrefix, [AsInt("sic_code")], Tag("Industry", Source),
                   CompanyPrefix, [Plain("cw_id")], IndustryPrefix, [AsInt("sic_code")], Rel("PART_OF", Source));
  }

  /** A company row's industry stub and an industry row meet on one node
    * exactly when `int(sic_code)` of the company is the industry's integer
    * `sic_code`. */
  lemma CompanyMeetsIndustry(company: Row, industry: Row)
    requires "sic_code" in company && ToInt(company["sic_code"]).Success?
    requires "sic_code" in industry && industry["sic_code"].Int?
    ensures KeyOf(industry, IndustryPrefix, [Plain("sic_code")]).Success?
    ensures KeyOf(company, IndustryPrefix, [AsInt("sic_code")]) == KeyOf(industry, IndustryPrefix, [Plain("sic_code")]) <==>
              ToInt(company["sic_code"]).value == industry["sic_code"].i
  {
    IndustryKeyOf(company);
    OneKey(industry, IndustryPrefix, "sic_code");
    var a, b := ToInt(company["sic_code"]).value, industry["sic_code"].i;
    if IndustryKey(a) == IndustryPrefix + Format(industry["sic_code"]) {
      assert IndustryKey(a)[|IndustryPrefix|..] == IntToString(a);
      assert (IndustryPrefix + IntToString(b))[|IndustryPrefix|..] == IntToString(b);
      IntToStringInjective(a, b);
    }
  }

  /** An industry stub and the PART_OF edge from a company to it. */
  lemma PartOfIndustry(g: Graph, c: string, ind: string)
    requires WellFormed(g) && c != ind
    ensures var h := ApplyOps(g, [AddNodeOp(ind, [("nlabel", Str("Industry")), ("source", Str(Source))]),
                                  AddEdgeOp(c, ind, [("elabel", Str("PART_OF")), ("source", Str(Source))])]);
            h.edges == g.edges + [Edge(c, ind, FromPairs([("elabel", Str("PART_OF")), ("source", Str(Source))]))] &&
            Attr(h, ind, "nlabel") == Some(Str("Industry")) &&
            (forall n :: n in h.nodes.vals <==> n in g.nodes.vals || n == ind || n == c) &&
            (forall a :: Attr(h, c, a) == Attr(g, c, a))
  {
    var tag := [("nlabel", Str("Industry")), ("source", Str(Source))];
    NodeThenEdge(g, ind, tag, c, ind, [("elabel", Str("PART_OF")), ("source", Str(Source))]);
    assert FromPairs(tag).vals == map["nlabel" := Str("Industry"), "source" := Str(Source)];
  }

  lemma IndustryLinkEffect(g: Graph, row: Row)
    requires WellFormed(g) && "cw_id" in row && "sic_code" in row
    ensures IndustryLink(row).failure.None? <==> ToInt(row["sic_code"]).Success?
    ensures IndustryLink(row).failure.None? ==>
              var ind := IndustryKey(ToInt(row["sic_code"]).value);
              var h := ApplyOps(g, IndustryLink(row).ops);
              h.edges == g.edges + [Edge(CompanyKey(row["cw_id"]), ind, FromPairs([("elabel", Str("PART_OF")), ("source", Str(Source))]))] &&
              Attr(h, ind, "nlabel") == Some(Str("Industry")) &&
              (forall n :: n in h.nodes.vals <==> n in g.nodes.vals || n == ind || n == CompanyKey(row["cw_id"])) &&
              (forall a :: Attr(h, CompanyKey(row["cw_id"]), a) == Attr(g, CompanyKey(row["cw_id"]), a))
  {
    IndustryLinkOps(row);
    if ToInt(row["sic_code"]).Success? {
      var ind := IndustryKey(ToInt(row["sic_code"]).value);
      CompanyIndustryApart(Format(row["cw_id"]), IntToString(ToInt(row["sic_code"]).value));
      PartOfIndustry(g, CompanyKey(row["cw_id"]), ind);
    }
  }

  /** A company row writes every company attribute on `CW_C_<cw_id>`; only
    * a present `sic_code` adds the industry stub `CW_I_<int(sic_code)>`
    * and the PART_OF edge to it, and a `sic_code` that is not a number
    * raises after the company is written. */
  lemma CompanyRowEffect(g: Graph, row: Row)
    requires WellFormed(g)
    ensures CompanyStep(row).failure.None? <==>
              "cw_id" in row && FieldsReadable(row, CompanyFields) && "sic_code" in row &&
              (IsNaN(row["sic_code"]) || ToInt(row["sic_code"]).Success?)
    ensures "cw_id" in row && FieldsReadable(row, CompanyFields) && "sic_code" in row ==>
              var h := ApplyOps(g, CompanyStep(row).ops);
              var c := CompanyKey(row["cw_id"]);
              var sic := row["sic_code"];
              Written(h, c, row, CompanyFields) &&
              (IsNaN(sic) || ToInt(sic).Failure? ==>
                 h.edges == g.edges && forall n :: n in h.nodes.vals <==> n in g.nodes.vals || n == c) &&
              (!IsNaN(sic) && ToInt(sic).Success? ==>
                 var ind := IndustryKey(ToInt(sic).value);
                 h.edges == g.edges + [Edge(c, ind, FromPairs([("elabel", Str("PART_OF")), ("source", Str(Source))]))] &&
                 Attr(h, ind, "nlabel") == Some(Str("Industry")) &&
                 forall n :: n in h.nodes.vals <==> n in g.nodes.vals || n == ind || n == c)
  {
    if "cw_id" in row && FieldsReadable(row, CompanyFields) && "sic_code" in row {
      CompanyRowWrites(g, row);
    }
  }

  lemma CompanyRowWrites(g: Graph, row: Row)
    requires WellFormed(g)
    requires "cw_id" in row && FieldsReadable(row, CompanyFields) && "sic_code" in row
    ensures CompanyStep(row).failure.None? <==> IsNaN(row["sic_code"]) || ToInt(row["sic_code"]).Success?
    ensures var h := ApplyOps(g, CompanyStep(row).ops);
            var c := CompanyKey(row["cw_id"]);
            var sic := row["sic_code"];
            Written(h, c, row, CompanyFields) &&
            (IsNaN(sic) || ToInt(sic).Failure? ==>
               h.edges == g.edges && forall n :: n in h.nodes.vals <==> n in g.nodes.vals || n == c) &&
            (!IsNaN(sic) && ToInt(sic).Success? ==>
               var ind := IndustryKey(ToInt(sic).value);
               h.edges == g.edges + [Edge(c, ind, FromPairs([("elabel", Str("PART_OF")), ("source", Str(Source))]))] &&
               Attr(h, ind, "nlabel") == Some(Str("Industry")) &&
               forall n :: n in h.nodes.vals <==> n in g.nodes.vals || n == ind || n == c)
  {
    CompanyKeyOf(row);
    CompanyFieldsApart();
    var op := NodeCall(row, CompanyPrefix, [Plain("cw_id")], CompanyFields).value;
    var c := CompanyKey(row["cw_id"]);
    var sic := row["sic_code"];
    var rest := if IsNaN(sic) then [] else IndustryLink(row).ops;
    assert CompanyStep(row).ops == [op] + rest;
    IndustryLinkOps(row);
    if !IsNaN(sic) && ToInt(sic).Success? {
      CompanyIndustryApart(Format(row["cw_id"]), IntToString(ToInt(sic).value));
    }
    NodeCallWritesAll(g, row, CompanyPrefix, [Plain("cw_id")], CompanyFields, rest);
    ApplyOpsAppend(g, [op], rest);
    var g1 := ApplyOps(g, [op]);
    ApplyOpsCons(g, [op]);
    assert g1 == NodeAdded(g, c, FromPairs(op.attrs));
    if !IsNaN(sic) {
      IndustryLinkEffect(g1, row);
    }
  }

  lemma OneKey(row: Row, prefix: string, column: string)
    requires column in row
    ensures KeyOf(row, prefix, [Plain(column)]) == Success(prefix + Format(row[column]))
  {
    KeyOfOne(row, prefix, Plain(column));
  }

  lemma TagApart(nlabel: string)
    ensures NamesApart(Tag(nlabel, Source))
  {
  }

  /** An industry row writes the industry under `CW_I_<sic_code>`, makes
    * sure the sector `CW_S_<sic_sector>` exists as a Sector, and links the
    * two by one PART_OF edge. */
  lemma IndustryRowEffect(g: Graph, row: Row)
    requires WellFormed(g)
    ensures IndustryStep(row).failure.None? <==> FieldsReadable(row, IndustryFields) && "sic_code" in row && "sic_sector" in row
    ensures IndustryStep(row).failure.None? ==>
              var ind := IndustryPrefix + Format(row["sic_code"]);
              var sec := SectorPrefix + Format(row["sic_sector"]);
              var h := ApplyOps(g, IndustryStep(row).ops);
              h.edges == g.edges + [Edge(ind, sec, FromPairs([("elabel", Str("PART_OF")), ("source", Str(Source))]))] &&
              Written(h, ind, row, IndustryFields) && Attr(h, sec, "nlabel") == Some(Str("Sector")) &&
              (forall n :: n in h.nodes.vals <==> n in g.nodes.vals || n == ind || n == sec)
  {
    LinkedTagEffect(g, row, IndustryPrefix, "sic_code", IndustryFields, SectorPrefix, "sic_sector", "Sector", "PART_OF", 3);
  }

  /** `Linked` whose second node is only tagged with a label. */
  lemma LinkedTagEffect(g: Graph, row: Row, uPrefix: string, uColumn: string, ufs: seq<Field>,
                        vPrefix: string, vColumn: string, nlabel: string, elabel: string, at: nat)
    requires WellFormed(g) && NamesApart(ufs)
    requires at < |uPrefix| && at < |vPrefix| && uPrefix[at] != vPrefix[at]
    ensures Linked(row, uPrefix, [Plain(uColumn)], ufs, vPrefix, [Plain(vColumn)], Tag(nlabel, Source), Rel(elabel, Source)).failure.None? <==>
              FieldsReadable(row, ufs) && uColumn in row && vColumn in row
    ensures Linked(row, uPrefix, [Plain(uColumn)], ufs, vPrefix, [Plain(vColumn)], Tag(nlabel, Source), Rel(elabel, Source)).failure.None? ==>
              var u := uPrefix + Format(row[uColumn]);
              var v := vPrefix + Format(row[vColumn]);
              var h := ApplyOps(g, Linked(row, uPrefix, [Plain(uColumn)], ufs, vPrefix, [Plain(vColumn)], Tag(nlabel, Source), Rel(elabel, Source)).ops);
              h.edges == g.edges + [Edge(u, v, FromPairs([("elabel", Str(elabel)), ("source", Str(Source))]))] &&
              Written(h, u, row, ufs) && Attr(h, v, "nlabel") == Some(Str(nlabel)) &&
              (forall n :: n in h.nodes.vals <==> n in g.nodes.vals || n == u || n == v)
  {
    TagApart(nlabel);
    RelAttrs(row, elabel, Source);
    TagAttrs(row, nlabel, Source);
    LinkedPlainEffect(g, row, uPrefix, uColumn, ufs, vPrefix, vColumn, Tag(nlabel, Source), Rel(elabel, Source), at);
    if uColumn in row && vColumn in row {
      var v := vPrefix + Format(row[vColumn]);
      TagWritesLabel(ApplyOps(g, Linked(row, uPrefix, [Plain(uColumn)], ufs, vPrefix, [Plain(vColumn)], Tag(nlabel, Source), Rel(elabel, Source)).ops), v, row, nlabel, elabel);
    }
  }

  /** The fixed fields of a tag are always readable, and writing them sets the label. */
  lemma TagWritesLabel(h: Graph, key: string, row: Row, nlabel: string, elabel: string)
    ensures FieldsReadable(row, Tag(nlabel, Source)) && FieldsReadable(row, Rel(elabel, Source))
    ensures Written(h, key, row, Tag(nlabel, Source)) ==> Attr(h, key, "nlabel") == Some(Str(nlabel))
  {
    assert Tag(nlabel, Source)[0] == Fixed("nlabel", Str(nlabel));
  }

  /** A sector row writes the sector under `CW_S_<sic_sector>` and its group
    * under `CW_SG_<sector_group>`, linked by one PART_OF edge. */
  lemma SectorRowEffect(g: Graph, row: Row)
    requires WellFormed(g)
    ensures SectorStep(row).failure.None? <==>
              FieldsReadable(row, SectorFields) && FieldsReadable(row, SectorGroupFields) && "sic_sector" in row && "sector_group" in row
    ensures SectorStep(row).failure.None? ==>
              var sec := SectorPrefix + Format(row["sic_sector"]);
              var grp := SectorGroupPrefix + Format(row["sector_group"]);
              var h := ApplyOps(g, SectorStep(row).ops);
              h.edges == g.edges + [Edge(sec, grp, FromPairs([("elabel", Str("PART_OF")), ("source", Str(Source))]))] &&
              Written(h, sec, row, SectorFields) && Written(h, grp, row, SectorGroupFields) &&
              (forall n :: n in h.nodes.vals <==> n in g.nodes.vals || n == sec || n == grp)
  {
    RelAttrs(row, "PART_OF", Source);
    LinkedPlainEffect(g, row, SectorPrefix, "sic_sector", SectorFields, SectorGroupPrefix, "sector_group",
                      SectorGroupFields, Rel("PART_OF", Source), 4);
  }

  /** `"{}_{}".format(row[a], row[b])`. */
  function Pair(row: Row, a: string, b: string): string
    requires a in row && b in row
  {
    Format(row[a]) + "_" + Format(row[b])
  }

  lemma PairKey(row: Row, prefix: string, a: string, b: string)
    requires a in row && b in row
    ensures KeyOf(row, prefix, [Plain(a), Plain(b)]) == Success(prefix + Pair(row, a, b))
  {
    KeyOfTwo(row, prefix, Plain(a), Plain(b));
  }

  /** A subdivision row writes the subdivision under
    * `CW_SD_<country_code>_<subdivision_code>` with `subdivision_code` set to
    * `<country_code>_<subdivision_code>`, makes sure the country
    * `CW_CT_<country_code>` exists as a Country, and links the two by IS_IN. */
  lemma SubdivisionRowEffect(g: Graph, row: Row)
    requires WellFormed(g)
    ensures SubdivisionStep(row).failure.None? <==> FieldsReadable(row, SubdivisionFields) && "country_code" in row && "subdivision_code" in row
    ensures SubdivisionStep(row).failure.None? ==>
              var sd := SubdivisionPrefix + Pair(row, "country_code", "subdivision_code");
              var ct := CountryPrefix + Format(row["country_code"]);
              var h := ApplyOps(g, SubdivisionStep(row).ops);
              h.edges == g.edges + [Edge(sd, ct, FromPairs([("elabel", Str("IS_IN")), ("source", Str(Source))]))] &&
              Written(h, sd, row, SubdivisionFields) &&
              Attr(h, sd, "subdivision_code") == Some(Str(Pair(row, "country_code", "subdivision_code"))) &&
              Attr(h, ct, "nlabel") == Some(Str("Country")) &&
              (forall n :: n in h.nodes.vals <==> n in g.nodes.vals || n == sd || n == ct)
  {
    if "country_code" in row && "subdivision_code" in row {
      SubdivisionLinked(g, row);
    } else {
      assert SubdivisionStep(row).failure.Some?;
      assert !FieldsReadable(row, SubdivisionFields) by {
        assert FieldResult(row, SubdivisionFields[1]).Failure?;
      }
    }
  }

  lemma SubdivisionLinked(g: Graph, row: Row)
    requires WellFormed(g) && "country_code" in row && "subdivision_code" in row
    ensures SubdivisionStep(row).failure.None? <==> FieldsReadable(row, SubdivisionFields)
    ensures SubdivisionStep(row).failure.None? ==>
              var sd := SubdivisionPrefix + Pair(row, "country_code", "subdivision_code");
              var ct := CountryPrefix + Format(row["country_code"]);
              var h := ApplyOps(g, SubdivisionStep(row).ops);
              h.edges == g.edges + [Edge(sd, ct, FromPairs([("elabel", Str("IS_IN")), ("source", Str(Source))]))] &&
              Written(h, sd, row, SubdivisionFields) &&
              Attr(h, sd, "subdivision_code") == Some(Str(Pair(row, "country_code", "subdivision_code"))) &&
              Attr(h, ct, "nlabel") == Some(Str("Country")) &&
              (forall n :: n in h.nodes.vals <==> n in g.nodes.vals || n == sd || n == ct)
  {
    TagApart("Country");
    TagAttrs(row, "Country", Source);
    RelAttrs(row, "IS_IN", Source);
    var sd := SubdivisionPrefix + Pair(row, "country_code", "subdivision_code");
    var ct := CountryPrefix + Format(row["country_code"]);
    SubdivisionKeys(row);
    SubdivisionFieldsApart();
    LinkedKeysEffect(g, row, SubdivisionPrefix, SubdivisionParts, SubdivisionFields,
                     CountryPrefix, [Plain("country_code")], Tag("Country", Source), Rel("IS_IN", Source), sd, ct);
    SubdivisionCode(row);
  }

  lemma SubdivisionKeys(row: Row)
    requires "country_code" in row && "subdivision_code" in row
    ensures KeyOf(row, SubdivisionPrefix, SubdivisionParts) == Success(SubdivisionPrefix + Pair(row, "country_code", "subdivision_code"))
    ensures KeyOf(row, CountryPrefix, [Plain("country_code")]) == Success(CountryPrefix + Format(row["country_code"]))
    ensures SubdivisionPrefix + Pair(row, "country_code", "subdivision_code") != CountryPrefix + Format(row["country_code"])
  {
    PairKey(row, SubdivisionPrefix, "country_code", "subdivision_code");
    OneKey(row, CountryPrefix, "country_code");
    PrefixesApart(SubdivisionPrefix, CountryPrefix, Pair(row, "country_code", "subdivision_code"), Format(row["country_code"]), 3);
  }

  lemma SubdivisionFieldsApart()
    ensures NamesApart(SubdivisionFields)
  {
  }

  lemma SubdivisionCode(row: Row)
    requires "country_code" in row && "subdivision_code" in row
    ensures SubdivisionFields[1].name == "subdivision_code"
    ensures FieldResult(row, SubdivisionFields[1]) == Success(Str(Pair(row, "country_code", "subdivision_code")))
  {
    PairKey(row, "", "country_code", "subdivision_code");
  }

  /** A country row writes the country under `CW_CT_<country_code>` and
    * nothing else. */
  lemma CountryRowEffect(g: Graph, row: Row)
    requires WellFormed(g)
    ensures CountryStep(row).failure.None? <==> FieldsReadable(row, CountryFields)
    ensures CountryStep(row).failure.None? ==>
              var ct := CountryPrefix + Format(row["country_code"]);
              var h := ApplyOps(g, CountryStep(row).ops);
              h.edges == g.edges && Written(h, ct, row, CountryFields) &&
              (forall n :: n in h.nodes.vals <==> n in g.nodes.vals || n == ct)
  {
    if FieldsReadable(row, CountryFields) {
      assert FieldResult(row, CountryFields[1]).Success?;
      OneKey(row, CountryPrefix, "country_code");
      NodeCallWritesAll(g, row, CountryPrefix, [Plain("country_code")], CountryFields, []);
      assert CountryStep(row).ops == [NodeCall(row, CountryPrefix, [Plain("country_code")], CountryFields).value] + [];
      ApplyOpsCons(g, CountryStep(row).ops);
    }
  }

  // ---- Locations ---------------------------------------------------------------

  function LocationKey(street: Value): string { LocationPrefix + Format(street) }

  /** `{elabel: 'IS_IN', source: 'Corpwatch'}` and `{nlabel: 'Subdivision', ...}` as passed. */
  const IsInPairs: seq<(string, Value)> := [("elabel", Str("IS_IN")), ("source", Str(Source))]
  const SubdivisionTag: seq<(string, Value)> := [("nlabel", Str("Subdivision")), ("source", Str(Source))]

  /** The IS_IN part of a location row raises exactly when one of the two
    * code columns is absent; otherwise it links the location to
    * `CW_SD_<country_code>_<subdiv_code>` unless both codes are missing. */
  lemma LocationInSubdivisionOps(row: Row)
    requires "street_1" in row
    ensures LocationInSubdivision(row).failure.None? <==> "country_code" in row && "subdiv_code" in row
    ensures "country_code" in row && "subdiv_code" in row ==>
              var sd := SubdivisionPrefix + Pair(row, "country_code", "subdiv_code");
              LocationInSubdivision(row).ops ==
                if IsNaN(row["country_code"]) && IsNaN(row["subdiv_code"]) then []
                else [AddNodeOp(sd, SubdivisionTag), AddEdgeOp(LocationKey(row["street_1"]), sd, IsInPairs)]
  {
    if "country_code" in row && "subdiv_code" in row {
      SubdivisionLinkOps(row);
    } else if "country_code" in row {
      SubdivisionLinkFails(row);
    }
  }

  /** The subdivision stub and IS_IN edge a location row asks for. */
  function SubdivisionLink(row: Row): Step
  {
    NodeAndEdge(row, SubdivisionPrefix, LocatedSubdivision, Tag("Subdivision", Source),
                LocationPrefix, [Plain("street_1")], SubdivisionPrefix, LocatedSubdivision, Rel("IS_IN", Source))
  }

  lemma SubdivisionLinkOps(row: Row)
    requires "street_1" in row && "country_code" in row && "subdiv_code" in row
    ensures var sd := SubdivisionPrefix + Pair(row, "country_code", "subdiv_code");
            SubdivisionLink(row).failure.None? &&
            SubdivisionLink(row).ops == [AddNodeOp(sd, SubdivisionTag), AddEdgeOp(LocationKey(row["street_1"]), sd, IsInPairs)]
  {
    OneKey(row, LocationPrefix, "street_1");
    TagAttrs(row, "Subdivision", Source);
    RelAttrs(row, "IS_IN", Source);
    PairKey(row, SubdivisionPrefix, "country_code", "subdiv_code");
    NodeAndEdgeOps(row, SubdivisionPrefix, LocatedSubdivision, Tag("Subdivision", Source),
                   LocationPrefix, [Plain("street_1")], SubdivisionPrefix, LocatedSubdivision, Rel("IS_IN", Source));
  }

  lemma SubdivisionLinkFails(row: Row)
    requires "country_code" in row && "subdiv_code" !in row
    ensures SubdivisionLink(row).failure.Some?
  {
    NodeAndEdgeOps(row, SubdivisionPrefix, LocatedSubdivision, Tag("Subdivision", Source),
                   LocationPrefix, [Plain("street_1")], SubdivisionPrefix, LocatedSubdivision, Rel("IS_IN", Source));
    assert PartText(row, LocatedSubdivision[1]).Failure?;
  }

  /** The subdivision stub and the IS_IN edge from the location to it. */
  lemma SubdivisionLinkEffect(g: Graph, loc: string, sd: string)
    requires WellFormed(g)
    ensures var h := ApplyOps(g, [AddNodeOp(sd, SubdivisionTag), AddEdgeOp(loc, sd, IsInPairs)]);
            h.edges == g.edges + [Edge(loc, sd, FromPairs(IsInPairs))] &&
            Attr(h, sd, "nlabel") == Some(Str("Subdivision")) &&
            (forall n :: n in h.nodes.vals <==> n in g.nodes.vals || n == sd || n == loc) &&
            (forall n, a :: n != sd ==> Attr(h, n, a) == Attr(g, n, a))
  {
    NodeThenEdge(g, sd, SubdivisionTag, loc, sd, IsInPairs);
    var h := ApplyOps(g, [AddNodeOp(sd, SubdivisionTag), AddEdgeOp(loc, sd, IsInPairs)]);
    assert SubdivisionTag == [("nlabel", Str("Subdivision")), ("source", Str(Source))];
    assert FromPairs(SubdivisionTag).vals == map["nlabel" := Str("Subdivision"), "source" := Str(Source)];
    assert Attr(h, sd, "nlabel") == Some(Str("Subdivision"));
  }

  lemma WrittenKept(g: Graph, h: Graph, key: string, row: Row, fs: seq<Field>)
    requires Written(g, key, row, fs)
    requires forall a :: Attr(h, key, a) == Attr(g, key, a)
    ensures Written(h, key, row, fs)
  {
  }

  lemma LocationFieldsApart(prefix: string, zip: string, lat: Value, long: Value)
    requires zip == "postal_code" || zip == "zip"
    ensures NamesApart(LocationFields(prefix, zip, lat, long))
  {
  }

  /** A location row raises exactly when a column it reads is absent:
    * the coordinates, the location's attributes, the company id, the
    * edge's `type` or one of the subdivision codes. */
  lemma LocationRowFailure(row: Row)
    ensures LocationStep(row).failure.None? <==>
              FindCoords(row, "").Success? && "street_1" in row && "cw_id" in row && "type" in row &&
              "country_code" in row && "subdiv_code" in row &&
              FieldsReadable(row, LocationFields("", "postal_code", FindCoords(row, "").value.0, FindCoords(row, "").value.1))
  {
    var coords := FindCoords(row, "");
    if coords.Success? {
      var (lat, long) := coords.value;
      var fs := LocationFields("", "postal_code", lat, long);
      var first := Linked(row, LocationPrefix, [Plain("street_1")], fs, CompanyPrefix, [Plain("cw_id")], Tag("Company", Source), LocatedAt);
      assert LocationStep(row) == Then(first, LocationInSubdivision(row));
      LocationFieldsApart("", "postal_code", lat, long);
      TagApart("Company");
      LinkedPlainEffect(EmptyGraph(), row, LocationPrefix, "street_1", fs, CompanyPrefix, "cw_id", Tag("Company", Source), LocatedAt, 3);
      if FieldsReadable(row, fs) {
        assert FieldResult(row, fs[1]).Success?;
        assert fs[1] == Col("street_1", "street_1");
        LocationInSubdivisionOps(row);
      }
      assert "type" in row <==> FieldsReadable(row, LocatedAt) by {
        assert FieldResult(row, LocatedAt[1]) == Cell(row, "type");
      }
    }
  }

  /** A location row writes the location under `CW_L_<street_1>` with the
    * coordinates `__find_coords` found and makes sure the company exists
    * as a Company. */
  lemma LocationRowWrites(g: Graph, row: Row)
    requires WellFormed(g) && LocationStep(row).failure.None?
    ensures FindCoords(row, "").Success? && "street_1" in row && "cw_id" in row
    ensures var coords := FindCoords(row, "").value;
            var h := ApplyOps(g, LocationStep(row).ops);
            Written(h, LocationKey(row["street_1"]), row, LocationFields("", "postal_code", coords.0, coords.1)) &&
            Written(h, CompanyKey(row["cw_id"]), row, Tag("Company", Source))
  {
    LocationRowParts(g, row);
  }

  /** The LOCATED_AT edge runs from the location to the company; the IS_IN
    * edge to the subdivision follows unless both codes are missing. */
  lemma LocationRowEdges(g: Graph, row: Row)
    requires WellFormed(g) && LocationStep(row).failure.None?
    ensures "street_1" in row && "cw_id" in row && "type" in row && "country_code" in row && "subdiv_code" in row
    ensures var h := ApplyOps(g, LocationStep(row).ops);
            var located := Edge(LocationKey(row["street_1"]), CompanyKey(row["cw_id"]), FromPairs(Kwargs(row, LocatedAt).value));
            var sd := SubdivisionPrefix + Pair(row, "country_code", "subdiv_code");
            (IsNaN(row["country_code"]) && IsNaN(row["subdiv_code"]) ==> h.edges == g.edges + [located]) &&
            (!(IsNaN(row["country_code"]) && IsNaN(row["subdiv_code"])) ==>
               h.edges == g.edges + [located, Edge(LocationKey(row["street_1"]), sd, FromPairs(IsInPairs))] &&
               Attr(h, sd, "nlabel") == Some(Str("Subdivision")))
  {
    LocationRowFailure(row);
    LocationRowParts(g, row);
    var located := Edge(LocationKey(row["street_1"]), CompanyKey(row["cw_id"]), FromPairs(Kwargs(row, LocatedAt).value));
    var isIn := Edge(LocationKey(row["street_1"]), SubdivisionPrefix + Pair(row, "country_code", "subdiv_code"), FromPairs(IsInPairs));
    AppendTwo(g.edges, located, isIn);
  }

  lemma KeysApart(l: string, c: string, sd: string)
    ensures LocationPrefix + l != SubdivisionPrefix + sd && CompanyPrefix + c != SubdivisionPrefix + sd
  {
    PrefixesApart(LocationPrefix, SubdivisionPrefix, l, sd, 3);
    PrefixesApart(CompanyPrefix, SubdivisionPrefix, c, sd, 3);
  }

  lemma AppendTwo(es: seq<Edge>, x: Edge, y: Edge)
    ensures es + [x] + [y] == es + [x, y]
  {
  }

  /** The LOCATED_AT part of a location row, once the row does not raise. */
  lemma LocationFirstPart(g: Graph, row: Row)
    requires WellFormed(g) && LocationStep(row).failure.None?
    ensures FindCoords(row, "").Success? && "street_1" in row && "cw_id" in row && "country_code" in row && "subdiv_code" in row
    ensures var coords := FindCoords(row, "").value;
            var fs := LocationFields("", "postal_code", coords.0, coords.1);
            var first := Linked(row, LocationPrefix, [Plain("street_1")], fs, CompanyPrefix, [Plain("cw_id")], Tag("Company", Source), LocatedAt);
            var h1 := ApplyOps(g, first.ops);
            LocationStep(row).ops == first.ops + LocationInSubdivision(row).ops &&
            h1.edges == g.edges + [Edge(LocationKey(row["street_1"]), CompanyKey(row["cw_id"]), FromPairs(Kwargs(row, LocatedAt).value))] &&
            Written(h1, LocationKey(row["street_1"]), row, fs) && Written(h1, CompanyKey(row["cw_id"]), row, Tag("Company", Source))
  {
    LocationRowFailure(row);
    var (lat, long) := FindCoords(row, "").value;
    var fs := LocationFields("", "postal_code", lat, long);
    var first := Linked(row, LocationPrefix, [Plain("street_1")], fs, CompanyPrefix, [Plain("cw_id")], Tag("Company", Source), LocatedAt);
    assert LocationStep(row) == Then(first, LocationInSubdivision(row));
    LocationFieldsApart("", "postal_code", lat, long);
    TagApart("Company");
    LinkedPlainEffect(g, row, LocationPrefix, "street_1", fs, CompanyPrefix, "cw_id", Tag("Company", Source), LocatedAt, 3);
  }

  /** The two parts of a location row, each through its own lemma. */
  lemma LocationRowParts(g: Graph, row: Row)
    requires WellFormed(g) && LocationStep(row).failure.None?
    ensures FindCoords(row, "").Success? && "street_1" in row && "cw_id" in row && "country_code" in row && "subdiv_code" in row
    ensures var coords := FindCoords(row, "").value;
            var fs := LocationFields("", "postal_code", coords.0, coords.1);
            var loc := LocationKey(row["street_1"]);
            var c := CompanyKey(row["cw_id"]);
            var sd := SubdivisionPrefix + Pair(row, "country_code", "subdiv_code");
            var h := ApplyOps(g, LocationStep(row).ops);
            var h1edges := g.edges + [Edge(loc, c, FromPairs(Kwargs(row, LocatedAt).value))];
            Written(h, loc, row, fs) && Written(h, c, row, Tag("Company", Source)) &&
            (IsNaN(row["country_code"]) && IsNaN(row["subdiv_code"]) ==> h.edges == h1edges) &&
            (!(IsNaN(row["country_code"]) && IsNaN(row["subdiv_code"])) ==>
               h.edges == h1edges + [Edge(loc, sd, FromPairs(IsInPairs))] &&
               Attr(h, sd, "nlabel") == Some(Str("Subdivision")))
  {
    LocationFirstPart(g, row);
    var (lat, long) := FindCoords(row, "").value;
    var fs := LocationFields("", "postal_code", lat, long);
    var first := Linked(row, LocationPrefix, [Plain("street_1")], fs, CompanyPrefix, [Plain("cw_id")], Tag("Company", Source), LocatedAt);
    var loc := LocationKey(row["street_1"]);
    var c := CompanyKey(row["cw_id"]);
    var sd := SubdivisionPrefix + Pair(row, "country_code", "subdiv_code");
    LocationInSubdivisionOps(row);
    KeysApart(Format(row["street_1"]), Format(row["cw_id"]), Pair(row, "country_code", "subdiv_code"));
    LocationTail(g, first.ops, LocationInSubdivision(row).ops, row, fs, loc, c, sd);
  }

  /** What the IS_IN part adds after the LOCATED_AT part. */
  lemma LocationTail(g: Graph, ops: seq<GraphOp>, tail: seq<GraphOp>, row: Row, fs: seq<Field>, loc: string, c: string, sd: string)
    requires WellFormed(g) && loc != sd && c != sd
    requires tail == [] || tail == [AddNodeOp(sd, SubdivisionTag), AddEdgeOp(loc, sd, IsInPairs)]
    requires Written(ApplyOps(g, ops), loc, row, fs) && Written(ApplyOps(g, ops), c, row, Tag("Company", Source))
    ensures var h := ApplyOps(g, ops + tail);
            Written(h, loc, row, fs) && Written(h, c, row, Tag("Company", Source)) &&
            (tail == [] ==> h.edges == ApplyOps(g, ops).edges) &&
            (tail != [] ==>
               h.edges == ApplyOps(g, ops).edges + [Edge(loc, sd, FromPairs(IsInPairs))] &&
               Attr(h, sd, "nlabel") == Some(Str("Subdivision")))
  {
    var h1 := ApplyOps(g, ops);
    ApplyOpsAppend(g, ops, tail);
    if tail != [] {
      SubdivisionLinkEffect(h1, loc, sd);
      var h := ApplyOps(h1, tail);
      WrittenKept(h1, h, loc, row, fs);
      WrittenKept(h1, h, c, row, Tag("Company", Source));
    }
  }

  /** Rows that share a street share one location node, and the later row's
    * attributes are the ones it keeps. */
  lemma LocationsShareNode(g: Graph, first: Row, second: Row)
    requires WellFormed(g) && LocationStep(first).failure.None? && LocationStep(second).failure.None?
    requires "street_1" in first && "street_1" in second && first["street_1"] == second["street_1"]
    ensures var h := ApplyOps(ApplyOps(g, LocationStep(first).ops), LocationStep(second).ops);
            var coords := FindCoords(second, "").value;
            FindCoords(second, "").Success? &&
            Written(h, LocationKey(first["street_1"]), second, LocationFields("", "postal_code", coords.0, coords.1))
  {
    LocationRowWrites(ApplyOps(g, LocationStep(first).ops), second);
  }

  // ---- Filers ------------------------------------------------------------------

  function FilerKey(cik: Value): string { FilerPrefix + Format(cik) }

  /** `{elabel: 'LOCATED_AT', type: <kind>, source: 'Corpwatch'}`. */
  function FilerLocatedPairs(kind: string): seq<(string, Value)>
  {
    [("elabel", Str("LOCATED_AT")), ("type", Str(kind)), ("source", Str(Source))]
  }

  lemma FilerLocatedKwargs(row: Row, kind: string)
    ensures Kwargs(row, [Fixed("elabel", Str("LOCATED_AT")), Fixed("type", Str(kind)), Fixed("source", Str(Source))])
            == Success(FilerLocatedPairs(kind))
  {
    var fs := [Fixed("elabel", Str("LOCATED_AT")), Fixed("type", Str(kind)), Fixed("source", Str(Source))];
    assert FieldsReadable(row, fs) by {
      assert forall i :: 0 <= i < |fs| ==> FieldResult(row, fs[i]).Success?;
    }
    assert Kwargs(row, fs).value == FilerLocatedPairs(kind);
  }

  /** A filer location raises exactly when its coordinates or one of its
    * columns cannot be read; otherwise it is the location call and the
    * LOCATED_AT edge from the filer, typed by the kind. */
  lemma FilerLocationOps(row: Row, kind: string)
    requires "cik" in row && kind + "_street_1" in row
    ensures FilerLocation(row, kind).failure.None? <==>
              FindCoords(row, kind + "_").Success? &&
              FieldsReadable(row, LocationFields(kind + "_", "zip", FindCoords(row, kind + "_").value.0, FindCoords(row, kind + "_").value.1))
    ensures FilerLocation(row, kind).failure.None? ==>
              var coords := FindCoords(row, kind + "_").value;
              var fs := LocationFields(kind + "_", "zip", coords.0, coords.1);
              FilerLocation(row, kind).ops ==
                [AddNodeOp(LocationKey(row[kind + "_street_1"]), Kwargs(row, fs).value),
                 AddEdgeOp(FilerKey(row["cik"]), LocationKey(row[kind + "_street_1"]), FilerLocatedPairs(kind))]
  {
    assert (kind + "_") + "street_1" == kind + "_street_1";
    OneKey(row, LocationPrefix, kind + "_street_1");
    OneKey(row, FilerPrefix, "cik");
    FilerLocatedKwargs(row, kind);
  }

  /** The LOCATED_AT edge of a filer's business or mail location, when its
    * street is present. */
  function FilerLocated(row: Row, kind: string): seq<Edge>
  {
    var street := kind + "_street_1";
    if "cik" !in row || street !in row || IsNaN(row[street]) then []
    else [Edge(FilerKey(row["cik"]), LocationKey(row[kind + "_street_1"]), FromPairs(FilerLocatedPairs(kind)))]
  }

  /** One location part of a filer row, by itself. */
  lemma FilerPart(row: Row, kind: string)
    requires "cik" in row && kind + "_street_1" in row
    ensures var part := UnlessMissing(row, kind + "_street_1", FilerLocation(row, kind));
            part.failure.None? ==> EdgesOf(part.ops) == FilerLocated(row, kind) && LeavesNode(part.ops, FilerKey(row["cik"]))
  {
    var part := UnlessMissing(row, kind + "_street_1", FilerLocation(row, kind));
    var ops := part.ops;
    if part.failure.None? && !IsNaN(row[kind + "_street_1"]) {
      FilerLocationOps(row, kind);
      assert ops == FilerLocation(row, kind).ops;
      EdgesOfCons(ops);
      EdgesOfCons(ops[1..]);
      assert ops[1..][1..] == [];
      PrefixesApart(LocationPrefix, FilerPrefix, Format(row[kind + "_street_1"]), Format(row["cik"]), 3);
    }
  }

  /** A filer row raises exactly when the filer cannot be written, a street
    * column is absent, or a present street's location cannot be read. */
  lemma FilerRowFailure(row: Row)
    ensures FilerStep(row).failure.None? <==>
              "cik" in row && FieldsReadable(row, FilerFields) &&
              "business_street_1" in row && (IsNaN(row["business_street_1"]) || FilerLocation(row, "business").failure.None?) &&
              "mail_street_1" in row && (IsNaN(row["mail_street_1"]) || FilerLocation(row, "mail").failure.None?)
  {
    if "cik" in row {
      OneKey(row, FilerPrefix, "cik");
    }
  }

  lemma StreetColumns()
    ensures "business" + "_street_1" == "business_street_1" && "mail" + "_street_1" == "mail_street_1"
  {
  }

  /** A filer row is the filer call followed by its two location parts. */
  lemma FilerRowOps(row: Row)
    requires FilerStep(row).failure.None?
    ensures "cik" in row && "business_street_1" in row && "mail_street_1" in row && FieldsReadable(row, FilerFields)
    ensures var b := UnlessMissing(row, "business" + "_street_1", FilerLocation(row, "business"));
            var m := UnlessMissing(row, "mail" + "_street_1", FilerLocation(row, "mail"));
            b.failure.None? && m.failure.None? &&
            FilerStep(row).ops == [AddNodeOp(FilerKey(row["cik"]), Kwargs(row, FilerFields).value)] + (b.ops + m.ops)
  {
    StreetColumns();
    var call := NodeCall(row, FilerPrefix, [Plain("cik")], FilerFields);
    var b := UnlessMissing(row, "business_street_1", FilerLocation(row, "business"));
    var m := UnlessMissing(row, "mail_street_1", FilerLocation(row, "mail"));
    assert FilerStep(row) == Call(call, Then(b, m));
    KeyOfOneIff(row, FilerPrefix, Plain("cik"));
    OneKey(row, FilerPrefix, "cik");
  }

  /** A filer row adds a LOCATED_AT edge from the filer to its business and
    * to its mail location, each only when that street is present. */
  lemma FilerRowEdges(g: Graph, row: Row)
    requires WellFormed(g) && FilerStep(row).failure.None?
    ensures "cik" in row && "business_street_1" in row && "mail_street_1" in row
    ensures ApplyOps(g, FilerStep(row).ops).edges == g.edges + FilerLocated(row, "business") + FilerLocated(row, "mail")
  {
    FilerRowOps(row);
    StreetColumns();
    FilerPart(row, "business");
    FilerPart(row, "mail");
    NodeThenParts(g, AddNodeOp(FilerKey(row["cik"]), Kwargs(row, FilerFields).value),
                  UnlessMissing(row, "business_street_1", FilerLocation(row, "business")).ops,
                  UnlessMissing(row, "mail_street_1", FilerLocation(row, "mail")).ops);
  }

  /** A node call followed by two parts adds exactly the parts' edges. */
  lemma NodeThenParts(g: Graph, op: GraphOp, a: seq<GraphOp>, b: seq<GraphOp>)
    requires WellFormed(g) && op.AddNodeOp?
    ensures ApplyOps(g, [op] + (a + b)).edges == g.edges + EdgesOf(a) + EdgesOf(b)
  {
    var ea, eb := EdgesOf(a), EdgesOf(b);
    ApplyOpsEdges(g, [op] + (a + b));
    EdgesOfAppend([op], a + b);
    EdgesOfAppend(a, b);
    assert EdgesOf([op]) == [] by {
      assert [op][1..] == [];
    }
    assert [] + (ea + eb) == ea + eb;
    AppendAssoc(g.edges, ea, eb);
  }

  /** A filer row writes every filer attribute on `CW_F_<cik>`; the
    * locations that follow never write the filer's node. */
  lemma FilerRowWrites(g: Graph, row: Row)
    requires WellFormed(g) && FilerStep(row).failure.None?
    ensures "cik" in row
    ensures Written(ApplyOps(g, FilerStep(row).ops), FilerKey(row["cik"]), row, FilerFields)
  {
    FilerRowOps(row);
    StreetColumns();
    var b := UnlessMissing(row, "business_street_1", FilerLocation(row, "business"));
    var m := UnlessMissing(row, "mail_street_1", FilerLocation(row, "mail"));
    FilerPart(row, "business");
    FilerPart(row, "mail");
    LeavesBoth(b.ops, m.ops, FilerKey(row["cik"]));
    FilerWritten(g, row, b.ops + m.ops);
  }

  lemma FilerWritten(g: Graph, row: Row, rest: seq<GraphOp>)
    requires WellFormed(g) && "cik" in row && FieldsReadable(row, FilerFields) && LeavesNode(rest, FilerKey(row["cik"]))
    ensures Written(ApplyOps(g, [AddNodeOp(FilerKey(row["cik"]), Kwargs(row, FilerFields).value)] + rest), FilerKey(row["cik"]), row, FilerFields)
  {
    FilerFieldsApart();
    FilerCall(row);
    NodeCallWritesAll(g, row, FilerPrefix, [Plain("cik")], FilerFields, rest);
  }

  lemma FilerFieldsApart()
    ensures NamesApart(FilerFields)
  {
  }

  lemma FilerCall(row: Row)
    requires "cik" in row && FieldsReadable(row, FilerFields)
    ensures NodeCall(row, FilerPrefix, [Plain("cik")], FilerFields)
            == Success(AddNodeOp(FilerKey(row["cik"]), Kwargs(row, FilerFields).value))
  {
    OneKey(row, FilerPrefix, "cik");
  }

  lemma LeavesBoth(a: seq<GraphOp>, b: seq<GraphOp>, key: string)
    requires LeavesNode(a, key) && LeavesNode(b, key)
    ensures LeavesNode(a + b, key)
  {
    forall j | 0 <= j < |a + b| && (a + b)[j].AddNodeOp?
      ensures (a + b)[j].key != key
    {
      if j >= |a| {
        assert (a + b)[j] == b[j - |a|];
      }
    }
  }

  // ---- Filings -----------------------------------------------------------------

  function FilingPairs(elabel: string, row: Row): seq<(string, Value)>
    requires "filing_id" in row
  {
    [("elabel", Str(elabel)), ("filing_id", row["filing_id"]), ("source", Str(Source))]
  }

  function TagPairs(nlabel: string): seq<(string, Value)>
  {
    [("nlabel", Str(nlabel)), ("source", Str(Source))]
  }

  lemma TagVals(nlabel: string)
    ensures FromPairs(TagPairs(nlabel)).vals == map["nlabel" := Str(nlabel), "source" := Str(Source)]
  {
    var t := TagPairs(nlabel);
    assert t[..1] == [t[0]] && t[..1][..0] == [];
  }

  /** The filer's key: `CW_F_<int(filer_cik)>`. */
  function FilerIntKey(row: Row): string
    requires "filer_cik" in row && ToInt(row["filer_cik"]).Success?
  {
    FilerPrefix + IntToString(ToInt(row["filer_cik"]).value)
  }

  lemma FilingKwargs(row: Row, elabel: string)
    requires "filing_id" in row && (elabel == "FILED" || elabel == "PARENT")
    ensures Kwargs(row, if elabel == "FILED" then FiledFields else ParentFields) == Success(FilingPairs(elabel, row))
  {
    var fs := if elabel == "FILED" then FiledFields else ParentFields;
    assert FieldsReadable(row, fs) by {
      assert forall i :: 0 <= i < |fs| ==> FieldResult(row, fs[i]).Success?;
    }
    assert Kwargs(row, fs).value == FilingPairs(elabel, row);
  }

  /** The FILED part of a relationship row. */
  lemma FiledOps(row: Row)
    ensures var filed := Linked(row, FilerPrefix, [AsInt("filer_cik")], Tag("Filer", Source), CompanyPrefix, [Plain("cw_id")],
                                Tag("Company", Source), FiledFields);
            (filed.failure.None? <==> "filer_cik" in row && ToInt(row["filer_cik"]).Success? && "cw_id" in row && "filing_id" in row) &&
            (filed.failure.None? ==>
               filed.ops == [AddNodeOp(FilerIntKey(row), TagPairs("Filer")), AddNodeOp(CompanyKey(row["cw_id"]), TagPairs("Company")),
                             AddEdgeOp(FilerIntKey(row), CompanyKey(row["cw_id"]), FilingPairs("FILED", row))])
  {
    LinkedOps(row, FilerPrefix, [AsInt("filer_cik")], Tag("Filer", Source), CompanyPrefix, [Plain("cw_id")], Tag("Company", Source), FiledFields);
    TagAttrs(row, "Filer", Source);
    TagAttrs(row, "Company", Source);
    KeyOfOneIff(row, FilerPrefix, AsInt("filer_cik"));
    KeyOfOneIff(row, CompanyPrefix, Plain("cw_id"));
    if "filer_cik" in row && ToInt(row["filer_cik"]).Success? {
      KeyOfOne(row, FilerPrefix, AsInt("filer_cik"));
    }
    if "cw_id" in row {
      CompanyKeyOf(row);
    }
    if "filing_id" in row {
      FilingKwargs(row, "FILED");
    } else {
      assert FieldResult(row, FiledFields[1]).Failure?;
    }
  }

  /** The PARENT part of a relationship row, once the parent id is present. */
  lemma ParentOps(row: Row)
    requires "parent_cw_id" in row && "cw_id" in row && "filing_id" in row
    ensures ParentLink(row) == Do([AddNodeOp(CompanyKey(row["parent_cw_id"]), TagPairs("Company")),
                                   AddEdgeOp(CompanyKey(row["parent_cw_id"]), CompanyKey(row["cw_id"]), FilingPairs("PARENT", row))])
  {
    NodeAndEdgeOps(row, CompanyPrefix, [Plain("parent_cw_id")], Tag("Company", Source),
                   CompanyPrefix, [Plain("parent_cw_id")], CompanyPrefix, [Plain("cw_id")], ParentFields);
    TagAttrs(row, "Company", Source);
    OneKey(row, CompanyPrefix, "parent_cw_id");
    CompanyKeyOf(row);
    FilingKwargs(row, "PARENT");
  }

  /** A relationship row raises exactly when a column it reads is absent or
    * `filer_cik` is not a number. */
  lemma RelationshipFailure(row: Row)
    ensures RelationshipStep(row).failure.None? <==>
              "filer_cik" in row && ToInt(row["filer_cik"]).Success? && "cw_id" in row && "filing_id" in row && "parent_cw_id" in row
  {
    var filed := Linked(row, FilerPrefix, [AsInt("filer_cik")], Tag("Filer", Source), CompanyPrefix, [Plain("cw_id")],
                        Tag("Company", Source), FiledFields);
    var parent := UnlessMissing(row, "parent_cw_id", ParentLink(row));
    assert RelationshipStep(row) == Then(filed, parent);
    FiledOps(row);
    if filed.failure.None? && "parent_cw_id" in row {
      ParentOps(row);
    }
  }

  /** Otherwise it is the filer and company calls with the FILED edge
    * between them, then, only when `parent_cw_id` is present, the parent
    * company and the PARENT edge from the parent to the child. */
  lemma RelationshipOps(row: Row)
    requires RelationshipStep(row).failure.None?
    ensures "filer_cik" in row && ToInt(row["filer_cik"]).Success? && "cw_id" in row && "filing_id" in row && "parent_cw_id" in row
    ensures var f := FilerIntKey(row);
            var c := CompanyKey(row["cw_id"]);
            var p := CompanyKey(row["parent_cw_id"]);
            RelationshipStep(row).ops ==
              [AddNodeOp(f, TagPairs("Filer")), AddNodeOp(c, TagPairs("Company")), AddEdgeOp(f, c, FilingPairs("FILED", row))] +
              (if IsNaN(row["parent_cw_id"]) then []
               else [AddNodeOp(p, TagPairs("Company")), AddEdgeOp(p, c, FilingPairs("PARENT", row))])
  {
    RelationshipFailure(row);
    var filed := Linked(row, FilerPrefix, [AsInt("filer_cik")], Tag("Filer", Source), CompanyPrefix, [Plain("cw_id")],
                        Tag("Company", Source), FiledFields);
    var parent := UnlessMissing(row, "parent_cw_id", ParentLink(row));
    assert RelationshipStep(row) == Then(filed, parent);
    FiledOps(row);
    if !IsNaN(row["parent_cw_id"]) {
      ParentOps(row);
    }
  }

  /** A relationship row adds the FILED edge from the filer to the company,
    * then the PARENT edge from the parent when there is one; the filer is
    * a Filer and the company a Company afterwards. */
  lemma RelationshipRowEffect(g: Graph, row: Row)
    requires WellFormed(g) && RelationshipStep(row).failure.None?
    ensures "filer_cik" in row && ToInt(row["filer_cik"]).Success? && "cw_id" in row && "filing_id" in row && "parent_cw_id" in row
    ensures var h := ApplyOps(g, RelationshipStep(row).ops);
            var f := FilerIntKey(row);
            var c := CompanyKey(row["cw_id"]);
            var p := CompanyKey(row["parent_cw_id"]);
            h.edges == g.edges + [Edge(f, c, FromPairs(FilingPairs("FILED", row)))] +
                       (if IsNaN(row["parent_cw_id"]) then [] else [Edge(p, c, FromPairs(FilingPairs("PARENT", row)))]) &&
            Attr(h, f, "nlabel") == Some(Str("Filer")) && Attr(h, c, "nlabel") == Some(Str("Company"))
  {
    RelationshipOps(row);
    PrefixesApart(FilerPrefix, CompanyPrefix, IntToString(ToInt(row["filer_cik"]).value), Format(row["cw_id"]), 3);
    PrefixesApart(FilerPrefix, CompanyPrefix, IntToString(ToInt(row["filer_cik"]).value), Format(row["parent_cw_id"]), 3);
    RelationshipEffect(g, FilerIntKey(row), CompanyKey(row["cw_id"]), CompanyKey(row["parent_cw_id"]),
                       FilingPairs("FILED", row), FilingPairs("PARENT", row), IsNaN(row["parent_cw_id"]));
  }

  /** The calls of a relationship row, over plain keys and edge attributes. */
  lemma RelationshipEffect(g: Graph, f: string, c: string, p: string, filed: seq<(string, Value)>,
                           parent: seq<(string, Value)>, orphan: bool)
    requires WellFormed(g) && f != c && f != p
    ensures var h := ApplyOps(g, [AddNodeOp(f, TagPairs("Filer")), AddNodeOp(c, TagPairs("Company")), AddEdgeOp(f, c, filed)] +
                                 (if orphan then [] else [AddNodeOp(p, TagPairs("Company")), AddEdgeOp(p, c, parent)]));
            h.edges == g.edges + [Edge(f, c, FromPairs(filed))] + (if orphan then [] else [Edge(p, c, FromPairs(parent))]) &&
            Attr(h, f, "nlabel") == Some(Str("Filer")) && Attr(h, c, "nlabel") == Some(Str("Company"))
  {
    if orphan {
      FiledAlone(g, f, c, filed);
    } else {
      FiledWithParent(g, f, c, p, filed, parent);
    }
  }

  /** A relationship row without a parent: the FILED part only. */
  lemma FiledAlone(g: Graph, f: string, c: string, filed: seq<(string, Value)>)
    requires WellFormed(g) && f != c
    ensures var h := ApplyOps(g, [AddNodeOp(f, TagPairs("Filer")), AddNodeOp(c, TagPairs("Company")), AddEdgeOp(f, c, filed)] + []);
            h.edges == g.edges + [Edge(f, c, FromPairs(filed))] + [] &&
            Attr(h, f, "nlabel") == Some(Str("Filer")) && Attr(h, c, "nlabel") == Some(Str("Company"))
  {
    FiledPart(g, f, c, filed);
    NothingAppended([AddNodeOp(f, TagPairs("Filer")), AddNodeOp(c, TagPairs("Company")), AddEdgeOp(f, c, filed)]);
    NothingAppended(g.edges + [Edge(f, c, FromPairs(filed))]);
  }

  lemma NothingAppended<T>(s: seq<T>)
    ensures s + [] == s
  {
  }

  /** A relationship row with a parent: the FILED part, then the PARENT part. */
  lemma FiledWithParent(g: Graph, f: string, c: string, p: string, filed: seq<(string, Value)>, parent: seq<(string, Value)>)
    requires WellFormed(g) && f != c && f != p
    ensures var first := [AddNodeOp(f, TagPairs("Filer")), AddNodeOp(c, TagPairs("Company")), AddEdgeOp(f, c, filed)];
            var second := [AddNodeOp(p, TagPairs("Company")), AddEdgeOp(p, c, parent)];
            var h := ApplyOps(g, first + second);
            h.edges == g.edges + [Edge(f, c, FromPairs(filed))] + [Edge(p, c, FromPairs(parent))] &&
            Attr(h, f, "nlabel") == Some(Str("Filer")) && Attr(h, c, "nlabel") == Some(Str("Company"))
  {
    var first := [AddNodeOp(f, TagPairs("Filer")), AddNodeOp(c, TagPairs("Company")), AddEdgeOp(f, c, filed)];
    var second := [AddNodeOp(p, TagPairs("Company")), AddEdgeOp(p, c, parent)];
    ApplyOpsAppend(g, first, second);
    FiledPart(g, f, c, filed);
    ParentPart(ApplyOps(g, first), f, c, p, parent);
  }

  lemma FiledPart(g: Graph, f: string, c: string, filed: seq<(string, Value)>)
    requires WellFormed(g) && f != c
    ensures var h := ApplyOps(g, [AddNodeOp(f, TagPairs("Filer")), AddNodeOp(c, TagPairs("Company")), AddEdgeOp(f, c, filed)]);
            h.edges == g.edges + [Edge(f, c, FromPairs(filed))] &&
            Attr(h, f, "nlabel") == Some(Str("Filer")) && Attr(h, c, "nlabel") == Some(Str("Company"))
  {
    NodesThenEdge(g, f, TagPairs("Filer"), c, TagPairs("Company"), filed);
    TagVals("Filer");
    TagVals("Company");
  }

  lemma ParentPart(g: Graph, f: string, c: string, p: string, parent: seq<(string, Value)>)
    requires WellFormed(g) && f != p
    requires Attr(g, f, "nlabel") == Some(Str("Filer")) && Attr(g, c, "nlabel") == Some(Str("Company"))
    ensures var h := ApplyOps(g, [AddNodeOp(p, TagPairs("Company")), AddEdgeOp(p, c, parent)]);
            h.edges == g.edges + [Edge(p, c, FromPairs(parent))] &&
            Attr(h, f, "nlabel") == Some(Str("Filer")) && Attr(h, c, "nlabel") == Some(Str("Company"))
  {
    NodeThenEdge(g, p, TagPairs("Company"), p, c, parent);
    TagVals("Company");
  }

  // ---- Country aliases ---------------------------------------------------------

  function CountryKey(cc: Value): string { CountryPrefix + Format(cc) }

  /** The keys the alias rows write, in order. */
  function AliasKeys(groups: seq<(Value, seq<Value>)>): (r: seq<string>)
    ensures |r| == |groups| && forall i :: 0 <= i < |groups| ==> r[i] == CountryKey(groups[i].0)
  {
    seq(|groups|, i requires 0 <= i < |groups| => CountryKey(groups[i].0))
  }

  /** One alias call: the country's `alias` is the set, nothing else moves. */
  lemma AliasOpEffect(g: Graph, k: string, v: Value)
    requires WellFormed(g)
    ensures var h := ApplyOps(g, [AddNodeOp(k, [("alias", v)])]);
            h.edges == g.edges && Attr(h, k, "alias") == Some(v) &&
            forall n, a :: n != k ==> Attr(h, n, a) == Attr(g, n, a)
  {
    var op := AddNodeOp(k, [("alias", v)]);
    ApplyOpsCons(g, [op]);
    assert [op][1..] == [];
    var pairs := [("alias", v)];
    assert pairs[..0] == [];
    assert FromPairs(pairs).vals == map["alias" := v];
    OpAttr(g, op, k, "alias");
    forall n, a | n != k
      ensures Attr(ApplyOp(g, op), n, a) == Attr(g, n, a)
    {
      OpAttr(g, op, n, a);
    }
  }

  /** Rows that each set one `alias` on distinct nodes never raise and add
    * no edge; afterwards each node has its value, and every other node is as
    * it was. */
  lemma {:induction false} AliasWrites(g: Graph, steps: seq<Step>, keys: seq<string>, vals: seq<Value>)
    requires WellFormed(g) && |steps| == |keys| == |vals|
    requires forall i :: 0 <= i < |steps| ==> steps[i] == Do([AddNodeOp(keys[i], [("alias", vals[i])])])
    requires forall i, j :: 0 <= i < j < |keys| ==> keys[i] != keys[j]
    ensures var r := Ingest(g, steps);
            r.1 == None && r.0.edges == g.edges &&
            (forall i :: 0 <= i < |keys| ==> Attr(r.0, keys[i], "alias") == Some(vals[i])) &&
            (forall n, a :: n !in keys ==> Attr(r.0, n, a) == Attr(g, n, a))
    decreases |steps|
  {
    if |steps| > 0 {
      var h := ApplyOps(g, steps[0].ops);
      AliasOpEffect(g, keys[0], vals[0]);
      AliasTail(steps, keys, vals);
      AliasWrites(h, steps[1..], keys[1..], vals[1..]);
      var r := Ingest(h, steps[1..]);
      assert r == Ingest(g, steps);
      HeadNotInTail(keys);
      AliasCombine(g, h, r.0, keys, vals);
    }
  }

  /** The rest of the alias rows still set one `alias` each on distinct nodes. */
  lemma AliasTail(steps: seq<Step>, keys: seq<string>, vals: seq<Value>)
    requires |steps| == |keys| == |vals| > 0
    requires forall i :: 0 <= i < |steps| ==> steps[i] == Do([AddNodeOp(keys[i], [("alias", vals[i])])])
    requires forall i, j :: 0 <= i < j < |keys| ==> keys[i] != keys[j]
    ensures forall i :: 0 <= i < |steps| - 1 ==> steps[1..][i] == Do([AddNodeOp(keys[1..][i], [("alias", vals[1..][i])])])
    ensures forall i, j :: 0 <= i < j < |keys| - 1 ==> keys[1..][i] != keys[1..][j]
  {
    forall i | 0 <= i < |steps| - 1
      ensures steps[1..][i] == Do([AddNodeOp(keys[1..][i], [("alias", vals[1..][i])])])
    {
      assert steps[1..][i] == steps[i + 1] && keys[1..][i] == keys[i + 1] && vals[1..][i] == vals[i + 1];
    }
    forall i, j | 0 <= i < j < |keys| - 1
      ensures keys[1..][i] != keys[1..][j]
    {
      assert keys[1..][i] == keys[i + 1] && keys[1..][j] == keys[j + 1];
    }
  }

  lemma HeadNotInTail(keys: seq<string>)
    requires |keys| > 0
    requires forall i, j :: 0 <= i < j < |keys| ==> keys[i] != keys[j]
    ensures keys[0] !in keys[1..]
  {
    forall i | 0 <= i < |keys[1..]|
      ensures keys[1..][i] != keys[0]
    {
      assert keys[1..][i] == keys[i + 1];
    }
  }

  /** The first alias write, then the others on different nodes. */
  lemma AliasCombine(g: Graph, h: Graph, r: Graph, keys: seq<string>, vals: seq<Value>)
    requires |keys| == |vals| > 0 && keys[0] !in keys[1..]
    requires Attr(h, keys[0], "alias") == Some(vals[0])
    requires forall n, a :: n != keys[0] ==> Attr(h, n, a) == Attr(g, n, a)
    requires forall i :: 0 <= i < |keys[1..]| ==> Attr(r, keys[1..][i], "alias") == Some(vals[1..][i])
    requires forall n, a :: n !in keys[1..] ==> Attr(r, n, a) == Attr(h, n, a)
    ensures forall i :: 0 <= i < |keys| ==> Attr(r, keys[i], "alias") == Some(vals[i])
    ensures forall n, a :: n !in keys ==> Attr(r, n, a) == Attr(g, n, a)
  {
    forall i | 0 <= i < |keys|
      ensures Attr(r, keys[i], "alias") == Some(vals[i])
    {
      if i > 0 {
        assert keys[i] == keys[1..][i - 1] && vals[i] == vals[1..][i - 1];
      }
    }
    forall n, a | n !in keys
      ensures Attr(r, n, a) == Attr(g, n, a)
    {
      assert n != keys[0];
      assert n !in keys[1..];
    }
  }

  /** The alias call of one group, whatever its names: the NaN check on a
    * set never fires. */
  lemma AliasStepCall(cc: Value, names: seq<Value>)
    ensures AliasStep(cc, names) == Do([AddNodeOp(CountryKey(cc), [("alias", AliasSet(names))])])
  {
    assert AliasSet(names).Set?;
  }

  /** The alias rows never raise and add no edge; afterwards each grouped
    * country's `alias` is the set of its names, and every node the groups
    * do not name is as it was. */
  lemma AliasesEffect(g: Graph, groups: seq<(Value, seq<Value>)>)
    requires WellFormed(g)
    requires forall i, j :: 0 <= i < j < |groups| ==> AliasKeys(groups)[i] != AliasKeys(groups)[j]
    ensures var r := Ingest(g, AliasSteps(groups));
            r.1 == None && r.0.edges == g.edges &&
            (forall i :: 0 <= i < |groups| ==> Attr(r.0, CountryKey(groups[i].0), "alias") == Some(AliasSet(groups[i].1))) &&
            (forall n, a :: n !in AliasKeys(groups) ==> Attr(r.0, n, a) == Attr(g, n, a))
  {
    var vals := seq(|groups|, i requires 0 <= i < |groups| => AliasSet(groups[i].1));
    forall i | 0 <= i < |groups|
      ensures AliasSteps(groups)[i] == Do([AddNodeOp(AliasKeys(groups)[i], [("alias", vals[i])])])
    {
      AliasStepCall(groups[i].0, groups[i].1);
    }
    AliasWrites(g, AliasSteps(groups), AliasKeys(groups), vals);
  }

  /** `create_countries_aliases` over a whole frame: no row raises, no edge
    * is added, and the country of every row with a code ends up with the
    * set of all names given for that code anywhere in the frame (codes that
    * print alike are taken to be the same code). */
  lemma CountriesAliases(g: Graph, df: Frame)
    requires WellFormed(g) && GroupRows(df, "country_code", "country_name").Success?
    requires forall i, j :: 0 <= i < |df| && 0 <= j < |df| && "country_code" in df[i].1 && "country_code" in df[j].1 &&
                            CountryKey(df[i].1["country_code"]) == CountryKey(df[j].1["country_code"]) ==>
                              df[i].1["country_code"] == df[j].1["country_code"]
    ensures forall i :: 0 <= i < |df| ==> "country_code" in df[i].1 && "country_name" in df[i].1
    ensures var r := Ingest(g, AliasSteps(GroupRows(df, "country_code", "country_name").value));
            var pairs := KeyValuePairs(df, "country_code", "country_name").value;
            r.1 == None && r.0.edges == g.edges &&
            forall i :: 0 <= i < |df| && !IsNaN(df[i].1["country_code"]) ==>
              Attr(r.0, CountryKey(df[i].1["country_code"]), "alias") == Some(AliasSet(ValuesOf(pairs, df[i].1["country_code"])))
  {
    var groups := GroupRows(df, "country_code", "country_name").value;
    var pairs := KeyValuePairs(df, "country_code", "country_name").value;
    forall a, b | 0 <= a < b < |groups|
      ensures AliasKeys(groups)[a] != AliasKeys(groups)[b]
    {
      var x := GroupRowOf(df, groups, pairs, a);
      var y := GroupRowOf(df, groups, pairs, b);
    }
    AliasesEffect(g, groups);
    var r := Ingest(g, AliasSteps(groups));
    forall i | 0 <= i < |df| && !IsNaN(df[i].1["country_code"])
      ensures Attr(r.0, CountryKey(df[i].1["country_code"]), "alias") == Some(AliasSet(ValuesOf(pairs, df[i].1["country_code"])))
    {
      assert pairs[i].0 == df[i].1["country_code"];
      var j :| 0 <= j < |groups| && groups[j].0 == pairs[i].0;
    }
  }

  /** A row of the frame whose code is the code of group `a`. */
  lemma GroupRowOf(df: Frame, groups: seq<(Value, seq<Value>)>, pairs: seq<(Value, Value)>, a: nat) returns (x: nat)
    requires GroupRows(df, "country_code", "country_name").Success?
    requires groups == GroupRows(df, "country_code", "country_name").value
    requires pairs == KeyValuePairs(df, "country_code", "country_name").value
    requires a < |groups|
    ensures x < |df| && "country_code" in df[x].1 && df[x].1["country_code"] == groups[a].0
  {
    assert groups[a].1[0] in ValuesOf(pairs, groups[a].0);
    x :| 0 <= x < |pairs| && pairs[x] == (groups[a].0, groups[a].1[0]);
  }
}
