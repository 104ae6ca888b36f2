// The twin cleanup as written truncates ids by the length of `WD_Org_`
// although the sets it builds already hold ids. A two-node graph shows the
// consequence: the only shared id becomes "" and the first removal names a
// node that is not there, which networkx rejects. The corrected cleanup
// finds the shared id and names the existing Organization node.
module WikidataFindings {
  import opened Wrappers
  import opened Text
  import opened Values
  import opened OrderedDicts
  import opened Graphs
  import opened WikidataGraph

  /** An unlabeled Organization and a labelled Person with the same id, as
    * the builder leaves them when a company's owner is a known person. */
  const OrgNode: Attrs :=
    Dict(["id", "nlabel", "source"], map["id" := Str("Q5"), "nlabel" := Str("Organization"), "source" := Str("Wikidata")])
  const PersonNode: Attrs :=
    Dict(["id", "nlabel", "label", "source"],
         map["id" := Str("Q5"), "nlabel" := Str("Person"), "label" := Str("Ann"), "source" := Str("Wikidata")])
  const Twinned: Graph :=
    Graph(Dict(["WD_Org_Q5", "WD_Per_Q5"], map["WD_Org_Q5" := OrgNode, "WD_Per_Q5" := PersonNode]), [])

  lemma TwinnedWellFormed()
    ensures WellFormed(Twinned)
  {
    assert OrgNode.Valid();
    assert PersonNode.Valid();
  }

  lemma OrganizationIds()
    ensures WellFormed(Twinned)
    ensures NodesIdsIn(Twinned, Twinned.nodes.keys, Str("Organization")) == Success({Str("Q5")})
  {
    TwinnedWellFormed();
    var keys := Twinned.nodes.keys;
    assert keys[1..] == ["WD_Per_Q5"] && keys[1..][1..] == [];
    assert !OfLabel(PersonNode, Str("Organization"));
    assert NodesIdsIn(Twinned, keys[1..], Str("Organization")) == NodesIdsIn(Twinned, keys[1..][1..], Str("Organization"));
    assert NodesIdsIn(Twinned, keys[1..], Str("Organization")) == Success({});
    assert OfLabel(OrgNode, Str("Organization"));
    assert Twinned.nodes.vals[keys[0]] == OrgNode;
    assert {OrgNode.vals["id"]} + {} == {Str("Q5")};
  }

  lemma PersonIds()
    ensures WellFormed(Twinned)
    ensures NodesIdsIn(Twinned, Twinned.nodes.keys, Str("Person")) == Success({Str("Q5")})
  {
    TwinnedWellFormed();
    var keys := Twinned.nodes.keys;
    assert keys[1..] == ["WD_Per_Q5"] && keys[1..][1..] == [];
    assert !OfLabel(OrgNode, Str("Person"));
    assert OfLabel(PersonNode, Str("Person"));
    assert NodesIdsIn(Twinned, keys[1..][1..], Str("Person")) == Success({});
    assert Twinned.nodes.vals[keys[1..][0]] == PersonNode;
    assert {PersonNode.vals["id"]} + {} == {Str("Q5")};
    assert NodesIdsIn(Twinned, keys[1..], Str("Person")) == Success({Str("Q5")});
    assert Twinned.nodes.vals[keys[0]] == OrgNode;
  }

  lemma UnlabeledOrganizationIds()
    ensures WellFormed(Twinned)
    ensures UnlabeledIdsIn(Twinned, Twinned.nodes.keys, "Organization") == Success({Str("Q5")})
  {
    TwinnedWellFormed();
    var keys := Twinned.nodes.keys;
    assert keys[1..] == ["WD_Per_Q5"] && keys[1..][1..] == [];
    assert !UnlabeledOf(PersonNode, "Organization");
    assert UnlabeledIdsIn(Twinned, keys[1..], "Organization") == UnlabeledIdsIn(Twinned, keys[1..][1..], "Organization");
    assert UnlabeledIdsIn(Twinned, keys[1..], "Organization") == Success({});
    assert UnlabeledOf(OrgNode, "Organization");
    assert Twinned.nodes.vals[keys[0]] == OrgNode;
    assert {OrgNode.vals["id"]} + {} == {Str("Q5")};
  }

  lemma UnlabeledPersonIds()
    ensures WellFormed(Twinned)
    ensures UnlabeledIdsIn(Twinned, Twinned.nodes.keys, "Person") == Success({})
  {
    TwinnedWellFormed();
    var keys := Twinned.nodes.keys;
    assert keys[1..] == ["WD_Per_Q5"] && keys[1..][1..] == [];
    assert !UnlabeledOf(OrgNode, "Person");
    assert !UnlabeledOf(PersonNode, "Person");
    assert UnlabeledIdsIn(Twinned, keys[1..], "Person") == UnlabeledIdsIn(Twinned, keys[1..][1..], "Person");
  }

  lemma TwinnedIds()
    ensures WellFormed(Twinned)
    ensures NodesIdsIn(Twinned, Twinned.nodes.keys, Str("Organization")) == Success({Str("Q5")})
    ensures UnlabeledIdsIn(Twinned, Twinned.nodes.keys, "Organization") == Success({Str("Q5")})
    ensures NodesIdsIn(Twinned, Twinned.nodes.keys, Str("Person")) == Success({Str("Q5")})
    ensures UnlabeledIdsIn(Twinned, Twinned.nodes.keys, "Person") == Success({})
  {
    OrganizationIds();
    PersonIds();
    UnlabeledOrganizationIds();
    UnlabeledPersonIds();
  }

  lemma TruncatedOne(id: string)
    ensures Truncated({Str(id)}) == Success({Str(Drop(id, 7))})
  {
    var r := Truncated({Str(id)});
    assert r.value == {Str(Drop(id, 7))};
  }

  lemma TruncatedNone()
    ensures Truncated({}) == Success({})
  {
    var r := Truncated({});
    assert r.value == {};
  }

  /** Both id computations, from the four id sets they start from. */
  lemma PlansFromIds(g: Graph, o: set<Value>, ou: set<Value>, p: set<Value>, pu: set<Value>)
    requires WellFormed(g)
    requires NodesIdsIn(g, g.nodes.keys, Str("Organization")) == Success(o)
    requires UnlabeledIdsIn(g, g.nodes.keys, "Organization") == Success(ou)
    requires NodesIdsIn(g, g.nodes.keys, Str("Person")) == Success(p)
    requires UnlabeledIdsIn(g, g.nodes.keys, "Person") == Success(pu)
    ensures Twins(g) == Success(PlanFrom(o, ou, p, pu))
    ensures Truncated(o).Success? && Truncated(ou).Success? && Truncated(p).Success? && Truncated(pu).Success? ==>
              TwinsAsWritten(g) == Success(PlanFrom(Truncated(o).value, Truncated(ou).value, Truncated(p).value, Truncated(pu).value))
  {
  }

  lemma AsWrittenPlan()
    ensures WellFormed(Twinned)
    ensures TwinsAsWritten(Twinned) == Success(TwinPlan({Str("")}, {Str("")}, {}))
  {
    TwinnedIds();
    TruncatedOne("Q5");
    TruncatedNone();
    assert Drop("Q5", 7) == "";
    PlansFromIds(Twinned, {Str("Q5")}, {Str("Q5")}, {Str("Q5")}, {});
    PlanOfTwins(Str(""));
  }

  lemma NoBareOrgNode()
    ensures WellFormed(Twinned)
    ensures NodeRemoved(Twinned, "WD_Org_").Failure?
  {
    TwinnedWellFormed();
  }

  /** As written: the shared id "Q5" is cut to "", so the loop's only
    * iteration removes `WD_Org_`, a node that does not exist. */
  lemma TruncatedTwinsRemoveMissingNode()
    ensures WellFormed(Twinned)
    ensures TwinsAsWritten(Twinned) == Success(TwinPlan({Str("")}, {Str("")}, {}))
    ensures NodeRemoved(Twinned, OrgKey(Str(""))).Failure?
  {
    AsWrittenPlan();
    NoBareOrgNode();
    assert OrgKey(Str("")) == "WD_Org_";
  }

  /** One id on both sides, labelled only on the Person side: only the
    * Organization node is to go. */
  lemma PlanOfTwins(id: Value)
    ensures PlanFrom({id}, {id}, {id}, {}) == TwinPlan({id}, {id}, {})
  {
    assert {id} * {id} == {id};
    assert {id} - {} == {id};
    assert {id} - {id} == {};
    assert {id} * {} == {};
  }

  lemma CorrectedPlan()
    ensures WellFormed(Twinned)
    ensures Twins(Twinned) == Success(TwinPlan({Str("Q5")}, {Str("Q5")}, {}))
  {
    TwinnedIds();
    PlansFromIds(Twinned, {Str("Q5")}, {Str("Q5")}, {Str("Q5")}, {});
    PlanOfTwins(Str("Q5"));
  }

  /** Corrected: the shared id stays "Q5"; only the unlabeled Organization
    * is to go, its key names an existing node, and the graph keeps every
    * node under the key of its label and id, so the cleanup cannot raise. */
  lemma CorrectedTwinsRemoveOrganization()
    ensures WellFormed(Twinned)
    ensures Twins(Twinned) == Success(TwinPlan({Str("Q5")}, {Str("Q5")}, {}))
    ensures OrgKey(Str("Q5")) in Twinned.nodes.vals
    ensures KeysFollowIds(Twinned)
  {
    CorrectedPlan();
    assert OrgKey(Str("Q5")) == "WD_Org_Q5";
    TwinnedKeysFollowIds();
  }

  lemma TwinnedKeysFollowIds()
    ensures KeysFollowIds(Twinned)
  {
    assert NodeKey("Organization", "Q5") == "WD_Org_Q5";
    assert NodeKey("Person", "Q5") == "WD_Per_Q5";
    assert KeyedBy("WD_Org_Q5", OrgNode);
    assert KeyedBy("WD_Per_Q5", PersonNode);
  }
}
