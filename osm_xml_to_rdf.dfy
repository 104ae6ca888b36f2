// OSMWrangle's `OsmXmlToRdf`: a SAX handler that reads an OSM XML file
// several times. A relation scan (repeated once when a kept relation refers
// to other relations) and a way scan record which nodes, ways and relations
// are referenced by elements worth keeping; the parse phase then builds every
// element, hands the named ones to the CSV converter and stores the geometry
// of every referenced element; a last pass retries the relations that could
// not be built while the file was read.
//
// The SAX parser is replaced by the sequence of events it reports. Decimal
// parsing of coordinates, the removal of illegal characters from tag values
// and the construction of relation records are calls into code outside this
// model and are parameters of the handler. The records handed to the CSV
// converter are collected in `converted`.
module OsmXml {
  import opened Wrappers
  import opened Text

  /** An attribute value as SAX reports it; `None` where it is absent (null). */
  type Attr = Option<string>

  /** A start tag with its attributes, or an end tag. */
  datatype Event = StartElement(name: string, attributes: map<string, string>) | EndElement(name: string)

  /** `attributes.getValue(qName)`. */
  function GetValue(attributes: map<string, string>, qName: string): Attr
  {
    if qName in attributes then Some(attributes[qName]) else None
  }

  /** `equalsIgnoreCase` against a lower-case element or member-type name. */
  predicate Is(name: string, lower: string)
  {
    Lower(name) == lower
  }

  /** The same comparison on an attribute value, which fails when it is null. */
  predicate IsType(kind: Attr, lower: string)
  {
    kind.Some? && Is(kind.value, lower)
  }

  datatype Coord = Coord(lon: real, lat: real)

  /** A JTS geometry. `Opaque` stands for a shape built by the record builder
    * for a relation, which this model does not look into. */
  datatype Geometry =
    | Point(at: Option<Coord>)
    | LineString(coords: seq<Coord>)
    | Polygon(ring: seq<Coord>)
    | Opaque(wkt: string)

  datatype Member = Member(ref: Attr, kind: Attr, role: Attr)

  /** An OSM node, way or relation under construction (`OSMNode`, `OSMWay`,
    * `OSMRelation`): its id, tags, geometry, node references and members. */
  datatype Element = Element(id: Attr, tags: map<Attr, Attr>, geometry: Option<Geometry>, nodeRefs: seq<Attr>, members: seq<Member>)

  function NewElement(id: Attr): Element
  {
    Element(id, map[], None, [], [])
  }

  /** Only elements with a `name` tag are transformed. */
  predicate HasName(e: Element)
  {
    Some("name") in e.tags
  }

  /** `setTagKeyValue` on the current element; nothing happens when there is
    * none (the call fails on null). */
  function SetTag(e: Option<Element>, k: Attr, v: Attr): Option<Element>
  {
    if e.None? then None else Some(e.value.(tags := e.value.tags[k := v]))
  }

  function AddNodeReference(e: Option<Element>, ref: Attr): Option<Element>
  {
    if e.None? then None else Some(e.value.(nodeRefs := e.value.nodeRefs + [ref]))
  }

  function AddMemberReference(e: Option<Element>, m: Member): Option<Element>
  {
    if e.None? then None else Some(e.value.(members := e.value.members + [m]))
  }

  /** An index of referenced elements: the key is the element id, the value
    * its geometry once known (null until then). */
  type Index = map<Attr, Option<Geometry>>

  /** The record builder's view of a relation: its geometry, built from the
    * three indices, or `None` while some member is still unknown. */
  type RelationBuilder = (Element, Index, Index, Index) -> Option<Geometry>

  /** A scan keeps the references of an element with a tag in the filters,
    * and of every element when there are no filters. */
  predicate Filtered(filters: Option<set<string>>, k: Attr)
  {
    filters.None? || (k.Some? && k.value in filters.value)
  }

  /** `index.putAll(tmp)` where every value of `tmp` is null: the keys of
    * `tmp` are added, with no geometry. */
  function Promote(index: Index, tmp: set<Attr>): (r: Index)
    ensures r.Keys == index.Keys + tmp
    ensures forall k :: k in tmp ==> r[k] == None
    ensures forall k :: k in index && k !in tmp ==> r[k] == index[k]
  {
    map k | k in index.Keys + tmp :: if k in tmp then None else index[k]
  }

  /** `if (index.containsKey(k)) index.put(k, g)`: the keys never change. */
  function PutIfPresent(index: Index, k: Attr, g: Option<Geometry>): (r: Index)
    ensures r.Keys == index.Keys
    ensures k in index ==> r[k] == g
    ensures forall j :: j in index && j != k ==> r[j] == index[j]
  {
    if k in index then index[k := g] else index
  }

  /** The geometries the parse phase finds for a way's node references, in
    * reference order: a reference missing from the index is skipped, one
    * present contributes its (possibly still null) geometry. */
  function IndexedGeometries(refs: seq<Attr>, index: Index): seq<Option<Geometry>>
  {
    if refs == [] then []
    else
      var last := refs[|refs| - 1];
      IndexedGeometries(refs[..|refs| - 1], index) + (if last in index then [index[last]] else [])
  }

  /** Every indexed reference contributes exactly its geometry, and only those. */
  lemma {:induction false} IndexedGeometriesCount(refs: seq<Attr>, index: Index)
    ensures |IndexedGeometries(refs, index)| <= |refs|
    ensures (forall j :: 0 <= j < |refs| ==> refs[j] !in index) ==> IndexedGeometries(refs, index) == []
    ensures (forall j :: 0 <= j < |refs| ==> refs[j] in index) ==>
      |IndexedGeometries(refs, index)| == |refs| &&
      forall j :: 0 <= j < |refs| ==> IndexedGeometries(refs, index)[j] == index[refs[j]]
  {
    if refs != [] {
      IndexedGeometriesCount(refs[..|refs| - 1], index);
    }
  }

  /** `buildGeometry` over the collected geometries: it fails on a null one. */
  function AllGeometries(gs: seq<Option<Geometry>>): (r: Option<seq<Geometry>>)
    ensures r.Some? <==> forall i :: 0 <= i < |gs| ==> gs[i].Some?
    ensures r.Some? ==> |r.value| == |gs| && forall i :: 0 <= i < |gs| ==> r.value[i] == gs[i].value
  {
    if gs == [] then Some([])
    else
      var init := AllGeometries(gs[..|gs| - 1]);
      var last := gs[|gs| - 1];
      if init.None? || last.None? then None else Some(init.value + [last.value])
  }

  function CoordinatesOf(g: Geometry): seq<Coord>
  {
    match g
    case Point(at) => if at.Some? then [at.value] else []
    case LineString(cs) => cs
    case Polygon(cs) => cs
    case Opaque(_) => []
  }

  /** `getCoordinates()` of a collection: the coordinates of its parts, in order. */
  function Coordinates(gs: seq<Geometry>): seq<Coord>
  {
    if gs == [] then [] else Coordinates(gs[..|gs| - 1]) + CoordinatesOf(gs[|gs| - 1])
  }

  /** The shape of a way from the geometries of its nodes: a closed ring of
    * more than three points is a polygon, more than one point a line string,
    * anything else a point (empty when there is no coordinate). */
  function WayShape(gs: seq<Geometry>): Geometry
  {
    var cs := Coordinates(gs);
    if |gs| > 3 && gs[0] == gs[|gs| - 1] then Polygon(cs)
    else if |gs| > 1 then LineString(cs)
    else Point(if cs == [] then None else Some(cs[0]))
  }

  /** The node geometries of a way whose nodes are at `cs`. */
  function Points(cs: seq<Coord>): (gs: seq<Geometry>)
    ensures |gs| == |cs|
  {
    seq(|cs|, i requires 0 <= i < |cs| => Point(Some(cs[i])))
  }

  lemma {:induction false} CoordinatesOfPoints(cs: seq<Coord>)
    ensures Coordinates(Points(cs)) == cs
  {
    if cs != [] {
      var init := cs[..|cs| - 1];
      assert Points(cs)[..|cs| - 1] == Points(init);
      CoordinatesOfPoints(init);
      assert cs == init + [cs[|cs| - 1]];
    }
  }

  /** For a way over node positions `cs`: it becomes a polygon exactly when it
    * has more than three points and its first and last points coincide, so
    * the ring is closed and long enough for a JTS linear ring; otherwise a
    * line string exactly when it has more than one point; otherwise a point.
    * Every shape keeps the positions in reference order. */
  lemma {:induction false} WayShapeOfPoints(cs: seq<Coord>)
    ensures var s := WayShape(Points(cs));
      (s.Polygon? <==> |cs| > 3 && cs[0] == cs[|cs| - 1]) &&
      (s.Polygon? ==> s.ring == cs && |s.ring| >= 4 && s.ring[0] == s.ring[|s.ring| - 1]) &&
      (s.LineString? <==> |cs| > 1 && !(|cs| > 3 && cs[0] == cs[|cs| - 1])) &&
      (s.LineString? ==> s.coords == cs) &&
      (s.Point? <==> |cs| <= 1) &&
      (s.Point? ==> s.at == if |cs| == 1 then Some(cs[0]) else None)
  {
    CoordinatesOfPoints(cs);
    var gs := Points(cs);
    if |cs| > 3 {
      assert gs[0] == gs[|gs| - 1] <==> cs[0] == cs[|cs| - 1];
    }
  }

  /** The relation id as the second pass looks it up in the relation index:
    * without its first and last character. The lookup fails (an exception
    * nothing catches) on a null id or one shorter than two characters. */
  function SecondPassKey(id: Attr): Option<Attr>
  {
    if id.None? || |id.value| < 2 then None else Some(Some(id.value[1..|id.value| - 1]))
  }

  /** The state the second pass threads through the incomplete relations:
    * those kept for later, the relation index, the records converted, the
    * relations built and the named ones among them, and whether it failed. */
  datatype Retry = Retry(kept: seq<Element>, relationIndex: Index, converted: seq<Element>, built: nat, named: nat, failed: bool)

  /** Re-examines one incomplete relation. */
  function RetryOne(acc: Retry, r: Element, nodes: Index, ways: Index, build: RelationBuilder): Retry
  {
    var rec := build(r, nodes, ways, acc.relationIndex);
    if rec.None? then acc.(kept := acc.kept + [r])
    else
      var conv := if HasName(r) then acc.converted + [r.(geometry := rec)] else acc.converted;
      var named := if HasName(r) then acc.named + 1 else acc.named;
      var key := SecondPassKey(r.id);
      if key.None? then acc.(kept := acc.kept + [r], converted := conv, named := named, failed := true)
      else Retry(acc.kept, PutIfPresent(acc.relationIndex, key.value, rec), conv, acc.built + 1, named, false)
  }

  /** Re-examines the relations in list order; after a failure the rest
    * stay in the list. */
  function RetryAll(rels: seq<Element>, acc: Retry, nodes: Index, ways: Index, build: RelationBuilder): Retry
    decreases |rels|
  {
    if rels == [] then acc
    else if acc.failed then acc.(kept := acc.kept + rels)
    else RetryAll(rels[1..], RetryOne(acc, rels[0], nodes, ways, build), nodes, ways, build)
  }

  /** Every relation re-examined is either built (and leaves the list) or
    * stays; a pass that does not fail builds each relation at most once and
    * leaves the keys of the relation index as they were. */
  lemma {:induction false} RetryAllAccounts(rels: seq<Element>, acc: Retry, nodes: Index, ways: Index, build: RelationBuilder)
    ensures var r := RetryAll(rels, acc, nodes, ways, build);
      |r.kept| + r.built == |acc.kept| + acc.built + |rels| &&
      r.named <= acc.named + |rels| &&
      (!r.failed ==> r.relationIndex.Keys == acc.relationIndex.Keys && r.named - acc.named <= r.built - acc.built) &&
      (forall e :: e in r.kept ==> e in acc.kept || e in rels)
    decreases |rels|
  {
    if rels != [] && !acc.failed {
      var next := RetryOne(acc, rels[0], nodes, ways, build);
      RetryAllAccounts(rels[1..], next, nodes, ways, build);
      assert rels == [rels[0]] + rels[1..];
    }
  }

  /** A pass over relations that all build: none is kept. */
  lemma {:induction false} RetryAllBuilt(rels: seq<Element>, acc: Retry, nodes: Index, ways: Index, build: RelationBuilder)
    requires !acc.failed
    requires forall i :: 0 <= i < |rels| ==> SecondPassKey(rels[i].id).Some?
    requires forall i, m :: 0 <= i < |rels| ==> build(rels[i], nodes, ways, m).Some?
    ensures var r := RetryAll(rels, acc, nodes, ways, build);
      !r.failed && r.kept == acc.kept && r.built == acc.built + |rels|
    decreases |rels|
  {
    if rels != [] {
      var next := RetryOne(acc, rels[0], nodes, ways, build);
      assert build(rels[0], nodes, ways, acc.relationIndex).Some?;
      RetryAllBuilt(rels[1..], next, nodes, ways, build);
    }
  }

  /** One step of a pass that has not failed, unfolded at position `i`. */
  lemma RetryAllUnfold(rels: seq<Element>, i: nat, acc: Retry, nodes: Index, ways: Index, build: RelationBuilder)
    requires i < |rels| && !acc.failed
    ensures var next := RetryOne(acc, rels[i], nodes, ways, build);
      RetryAll(rels[i..], acc, nodes, ways, build)
        == (if next.failed then next.(kept := next.kept + rels[i + 1..]) else RetryAll(rels[i + 1..], next, nodes, ways, build))
  {
    assert rels[i..][1..] == rels[i + 1..];
  }

  /** The passes `parseDocument` makes over the file; a scan records whether
    * it started with empty temporary indices and a cleared flag. */
  datatype Pass = RelationScan(cleared: bool) | WayScan(cleared: bool) | FullParse

  /** The passes of one `parseDocument`: one or two relation scans, the way
    * scan, the parse. */
  function Plan(rescan: bool): (p: seq<Pass>)
    ensures |p| == if rescan then 4 else 3
  {
    (if rescan then [RelationScan(true), RelationScan(true)] else [RelationScan(true)]) + [WayScan(true), FullParse]
  }

  class OsmXmlToRdf {
    /** The tags used in the classification filters; null without filters. */
    const tags: Option<set<string>>
    /** `Double.parseDouble` on an attribute value; `None` where it throws. */
    const parseDouble: Attr -> Option<real>
    /** `ValueChecker.removeIllegalChars`. */
    const removeIllegalChars: Attr -> Attr
    /** The record builder applied to a relation. */
    const createRelationRecord: RelationBuilder
    /** The SRID of the output geometries. */
    const targetSRID: int

    var scanWays: bool
    var scanRelations: bool
    var rescanRelations: bool
    var keepIndexed: bool
    var inNode: bool
    var inWay: bool
    var inRelation: bool

    /** The record builder's indices and its list of incomplete relations. */
    var nodeIndex: Index
    var wayIndex: Index
    var relationIndex: Index
    var incompleteRelations: seq<Element>

    /** The temporary indices of a scan; their values are always null. */
    var tmpNodeIndex: set<Attr>
    var tmpWayIndex: set<Attr>
    var tmpRelationIndex: set<Attr>

    var nodeTmp: Option<Element>
    var wayTmp: Option<Element>
    var relationTmp: Option<Element>

    var numNodes: nat
    var numWays: nat
    var numRelations: nat
    var numNamedEntities: nat
    /** The records handed to the CSV converter, in order. */
    var converted: seq<Element>

    ghost var passes: seq<Pass>

    /** Without a target CRS the output stays in WGS84 (EPSG 4326). */
    constructor(tags: Option<set<string>>, parseDouble: Attr -> Option<real>, removeIllegalChars: Attr -> Attr,
                createRelationRecord: RelationBuilder, targetCRS: Option<string>, targetSRID: int)
      ensures this.tags == tags && this.parseDouble == parseDouble && this.removeIllegalChars == removeIllegalChars
      ensures this.createRelationRecord == createRelationRecord
      ensures this.targetSRID == if targetCRS.None? then 4326 else targetSRID
      ensures scanWays && scanRelations && !rescanRelations && !keepIndexed && !inNode && !inWay && !inRelation
      ensures numNodes == 0 && numWays == 0 && numRelations == 0 && numNamedEntities == 0 && converted == []
      ensures passes == []
    {
      this.tags := tags;
      this.parseDouble := parseDouble;
      this.removeIllegalChars := removeIllegalChars;
      this.createRelationRecord := createRelationRecord;
      this.targetSRID := if targetCRS.None? then 4326 else targetSRID;
      scanWays, scanRelations, rescanRelations, keepIndexed := true, true, false, false;
      inNode, inWay, inRelation := false, false, false;
      nodeIndex, wayIndex, relationIndex, incompleteRelations := map[], map[], map[], [];
      tmpNodeIndex, tmpWayIndex, tmpRelationIndex := {}, {}, {};
      nodeTmp, wayTmp, relationTmp := None, None, None;
      numNodes, numWays, numRelations, numNamedEntities := 0, 0, 0, 0;
      converted := [];
      passes := [];
    }

    predicate Scanning()
      reads this
    {
      scanWays || scanRelations
    }

    predicate Fresh()
      reads this
    {
      tmpNodeIndex == {} && tmpWayIndex == {} && tmpRelationIndex == {} && !keepIndexed
    }

    function CurrentPass(): Pass
      reads this
    {
      if scanRelations then RelationScan(Fresh()) else if scanWays then WayScan(Fresh()) else FullParse
    }

    /** A node start in the parse phase: a new node at the parsed position.
      * When a coordinate does not parse, the node keeps no geometry and the
      * position flags stay as they were. */
    method StartNode(attributes: map<string, string>)
      modifies this`nodeTmp, this`inNode, this`inWay, this`inRelation
      ensures var id := GetValue(attributes, "id");
        var lon, lat := parseDouble(GetValue(attributes, "lon")), parseDouble(GetValue(attributes, "lat"));
        if lon.Some? && lat.Some? then
          nodeTmp == Some(NewElement(id).(geometry := Some(Point(Some(Coord(lon.value, lat.value)))))) &&
          inNode && !inWay && !inRelation
        else
          nodeTmp == Some(NewElement(id)) &&
          inNode == old(inNode) && inWay == old(inWay) && inRelation == old(inRelation)
    {
      nodeTmp := Some(NewElement(GetValue(attributes, "id")));
      var lon := parseDouble(GetValue(attributes, "lon"));
      if lon.None? { return; }
      var lat := parseDouble(GetValue(attributes, "lat"));
      if lat.None? { return; }
      nodeTmp := Some(nodeTmp.value.(geometry := Some(Point(Some(Coord(lon.value, lat.value))))));
      inNode, inWay, inRelation := true, false, false;
    }

    /** A way start outside the relation scan. In the way scan a way that a
      * kept relation refers to sets `keepIndexed`; in the parse phase the
      * handler is now inside a way. */
    method StartWay(attributes: map<string, string>)
      requires !scanRelations
      modifies this`wayTmp, this`keepIndexed, this`inNode, this`inWay, this`inRelation
      ensures var id := GetValue(attributes, "id");
        wayTmp == Some(NewElement(id)) &&
        keepIndexed == (old(keepIndexed) || (scanWays && id in wayIndex))
      ensures if scanWays then inNode == old(inNode) && inWay == old(inWay) && inRelation == old(inRelation)
              else !inNode && inWay && !inRelation
    {
      var id := GetValue(attributes, "id");
      wayTmp := Some(NewElement(id));
      if scanWays && id in wayIndex {
        keepIndexed := true;
      }
      if !scanWays {
        inWay, inNode, inRelation := true, false, false;
      }
    }

    /** A relation start outside the way scan. A relation already in the
      * relation index sets `keepIndexed` (in any phase). */
    method StartRelation(attributes: map<string, string>)
      requires !scanWays
      modifies this`relationTmp, this`keepIndexed, this`inNode, this`inWay, this`inRelation
      ensures var id := GetValue(attributes, "id");
        relationTmp == Some(NewElement(id)) &&
        keepIndexed == (old(keepIndexed) || id in relationIndex)
      ensures if scanRelations then inNode == old(inNode) && inWay == old(inWay) && inRelation == old(inRelation)
              else inRelation && !inWay && !inNode
    {
      var id := GetValue(attributes, "id");
      relationTmp := Some(NewElement(id));
      if id in relationIndex {
        keepIndexed := true;
      }
      if !scanRelations {
        inRelation, inWay, inNode := true, false, false;
      }
    }

    /** A node reference: recorded in the temporary node index during a scan,
      * attached to the current way in the parse phase. */
    method NodeRef(attributes: map<string, string>)
      modifies this`tmpNodeIndex, this`wayTmp
      ensures var ref := GetValue(attributes, "ref");
        if Scanning() then tmpNodeIndex == old(tmpNodeIndex) + {ref} && wayTmp == old(wayTmp)
        else tmpNodeIndex == old(tmpNodeIndex) && wayTmp == AddNodeReference(old(wayTmp), ref)
    {
      var ref := GetValue(attributes, "ref");
      if Scanning() {
        tmpNodeIndex := tmpNodeIndex + {ref};
      } else {
        wayTmp := AddNodeReference(wayTmp, ref);
      }
    }

    /** A tag: during a scan it only decides `keepIndexed`; in the parse
      * phase it is stored, cleaned, on the element the handler is in. */
    method Tag(attributes: map<string, string>)
      modifies this`keepIndexed, this`nodeTmp, this`wayTmp, this`relationTmp
      ensures var k, v := GetValue(attributes, "k"), removeIllegalChars(GetValue(attributes, "v"));
        if Scanning() then
          keepIndexed == (old(keepIndexed) || Filtered(tags, k)) &&
          nodeTmp == old(nodeTmp) && wayTmp == old(wayTmp) && relationTmp == old(relationTmp)
        else
          keepIndexed == old(keepIndexed) &&
          nodeTmp == (if inNode then SetTag(old(nodeTmp), k, v) else old(nodeTmp)) &&
          wayTmp == (if !inNode && inWay then SetTag(old(wayTmp), k, v) else old(wayTmp)) &&
          relationTmp == (if !inNode && !inWay && inRelation then SetTag(old(relationTmp), k, v) else old(relationTmp))
    {
      var k := GetValue(attributes, "k");
      if Scanning() {
        if Filtered(tags, k) {
          keepIndexed := true;
        }
      } else {
        var v := removeIllegalChars(GetValue(attributes, "v"));
        if inNode {
          nodeTmp := SetTag(nodeTmp, k, v);
        } else if inWay {
          wayTmp := SetTag(wayTmp, k, v);
        } else if inRelation {
          relationTmp := SetTag(relationTmp, k, v);
        }
      }
    }

    /** A relation member: during a scan its reference goes to the temporary
      * index of its type (nowhere when the type is missing or unknown); in
      * the parse phase it is attached to the current relation. */
    method MemberRef(attributes: map<string, string>)
      modifies this`tmpNodeIndex, this`tmpWayIndex, this`tmpRelationIndex, this`relationTmp
      ensures var ref, kind := GetValue(attributes, "ref"), GetValue(attributes, "type");
        if Scanning() then
          relationTmp == old(relationTmp) &&
          tmpNodeIndex == old(tmpNodeIndex) + (if IsType(kind, "node") then {ref} else {}) &&
          tmpWayIndex == old(tmpWayIndex) + (if IsType(kind, "way") then {ref} else {}) &&
          tmpRelationIndex == old(tmpRelationIndex) + (if IsType(kind, "relation") then {ref} else {})
        else
          tmpNodeIndex == old(tmpNodeIndex) && tmpWayIndex == old(tmpWayIndex) && tmpRelationIndex == old(tmpRelationIndex) &&
          relationTmp == AddMemberReference(old(relationTmp), Member(ref, kind, GetValue(attributes, "role")))
    {
      var ref, kind := GetValue(attributes, "ref"), GetValue(attributes, "type");
      if Scanning() {
        if IsType(kind, "node") {
          tmpNodeIndex := tmpNodeIndex + {ref};
        } else if IsType(kind, "way") {
          tmpWayIndex := tmpWayIndex + {ref};
        } else if IsType(kind, "relation") {
          tmpRelationIndex := tmpRelationIndex + {ref};
        }
      } else {
        relationTmp := AddMemberReference(relationTmp, Member(ref, kind, GetValue(attributes, "role")));
      }
    }

    /** `startElement`. During a scan nothing is attached to the element
      * being read: references only go to the temporary indices and tags only
      * decide `keepIndexed`. The global indices are never changed here. */
    method Start(name: string, attributes: map<string, string>)
      modifies this`nodeTmp, this`wayTmp, this`relationTmp, this`inNode, this`inWay, this`inRelation
      modifies this`keepIndexed, this`tmpNodeIndex, this`tmpWayIndex, this`tmpRelationIndex
      ensures Scanning() ==>
        nodeTmp == old(nodeTmp) && inNode == old(inNode) && inWay == old(inWay) && inRelation == old(inRelation) &&
        (!Is(name, "way") ==> wayTmp == old(wayTmp)) && (!Is(name, "relation") ==> relationTmp == old(relationTmp))
      ensures Scanning() && Is(name, "nd") ==> tmpNodeIndex == old(tmpNodeIndex) + {GetValue(attributes, "ref")}
      ensures Scanning() && Is(name, "tag") ==> keepIndexed == (old(keepIndexed) || Filtered(tags, GetValue(attributes, "k")))
      ensures !Scanning() ==> tmpNodeIndex == old(tmpNodeIndex) && tmpWayIndex == old(tmpWayIndex) && tmpRelationIndex == old(tmpRelationIndex)
    {
      if !scanWays && !scanRelations && Is(name, "node") {
        StartNode(attributes);
      } else if !scanRelations && Is(name, "way") {
        StartWay(attributes);
      } else if !scanWays && Is(name, "relation") {
        StartRelation(attributes);
      } else if Is(name, "nd") {
        NodeRef(attributes);
      } else if Is(name, "tag") {
        Tag(attributes);
      } else if Is(name, "member") {
        MemberRef(attributes);
      }
    }

    /** A node end in the parse phase: a named node is converted, a
      * referenced node's geometry is stored, and the node is counted. */
    method EndNode()
      requires !Scanning()
      modifies this`nodeTmp, this`converted, this`numNamedEntities, this`nodeIndex, this`numNodes
      ensures old(nodeTmp).None? ==>
        nodeTmp == old(nodeTmp) && converted == old(converted) && numNamedEntities == old(numNamedEntities) &&
        nodeIndex == old(nodeIndex) && numNodes == old(numNodes)
      ensures old(nodeTmp).Some? ==> var n := old(nodeTmp).value;
        converted == old(converted) + (if HasName(n) then [n] else []) &&
        numNamedEntities == old(numNamedEntities) + (if HasName(n) then 1 else 0) &&
        nodeIndex == PutIfPresent(old(nodeIndex), n.id, n.geometry) &&
        numNodes == old(numNodes) + 1 && nodeTmp.None?
    {
      if nodeTmp.None? { return; }
      var n := nodeTmp.value;
      if HasName(n) {
        converted := converted + [n];
        numNamedEntities := numNamedEntities + 1;
      }
      nodeIndex := PutIfPresent(nodeIndex, n.id, n.geometry);
      numNodes := numNodes + 1;
      nodeTmp := None;
    }

    /** A way end in the way scan: the node references collected since the
      * last way are kept when the way is wanted or already referenced; then
      * the temporary index and the flag are reset. */
    method EndWayScan()
      requires scanWays && !scanRelations
      modifies this`nodeIndex, this`tmpNodeIndex, this`keepIndexed
      ensures old(keepIndexed) || (wayTmp.Some? && wayTmp.value.id in old(wayIndex)) ==>
        nodeIndex == Promote(old(nodeIndex), old(tmpNodeIndex)) && tmpNodeIndex == {} && !keepIndexed
      ensures !old(keepIndexed) && wayTmp.Some? && wayTmp.value.id !in old(wayIndex) ==>
        nodeIndex == old(nodeIndex) && tmpNodeIndex == {} && !keepIndexed
      ensures !old(keepIndexed) && wayTmp.None? ==>
        nodeIndex == old(nodeIndex) && tmpNodeIndex == old(tmpNodeIndex) && keepIndexed == old(keepIndexed)
    {
      if !keepIndexed && wayTmp.None? { return; }
      if keepIndexed || wayTmp.value.id in wayIndex {
        nodeIndex := Promote(nodeIndex, tmpNodeIndex);
      }
      tmpNodeIndex := {};
      keepIndexed := false;
    }

    /** The geometries of a way's indexed node references, in order. */
    method CollectGeometries(refs: seq<Attr>) returns (gs: seq<Option<Geometry>>)
      ensures gs == IndexedGeometries(refs, nodeIndex)
    {
      gs := [];
      var i := 0;
      while i < |refs|
        invariant i <= |refs|
        invariant gs == IndexedGeometries(refs[..i], nodeIndex)
      {
        assert refs[..i + 1][..i] == refs[..i];
        if refs[i] in nodeIndex {
          gs := gs + [nodeIndex[refs[i]]];
        }
        i := i + 1;
      }
      assert refs[..i] == refs;
    }

    /** A way end in the parse phase: the way takes the shape of its indexed
      * nodes; a named way is converted, a referenced way's geometry is stored,
      * and the way is counted. A referenced node without geometry makes the
      * construction fail, and the way is then dropped. */
    method EndWayParse()
      requires !Scanning()
      modifies this`wayTmp, this`converted, this`numNamedEntities, this`wayIndex, this`numWays
      ensures old(wayTmp).None? || AllGeometries(IndexedGeometries(old(wayTmp).value.nodeRefs, nodeIndex)).None? ==>
        wayTmp == old(wayTmp) && converted == old(converted) && numNamedEntities == old(numNamedEntities) &&
        wayIndex == old(wayIndex) && numWays == old(numWays)
      ensures old(wayTmp).Some? && AllGeometries(IndexedGeometries(old(wayTmp).value.nodeRefs, nodeIndex)).Some? ==>
        var w := old(wayTmp).value;
        var way := w.(geometry := Some(WayShape(AllGeometries(IndexedGeometries(w.nodeRefs, nodeIndex)).value)));
        converted == old(converted) + (if HasName(w) then [way] else []) &&
        numNamedEntities == old(numNamedEntities) + (if HasName(w) then 1 else 0) &&
        wayIndex == PutIfPresent(old(wayIndex), w.id, way.geometry) &&
        numWays == old(numWays) + 1 && wayTmp.None?
    {
      if wayTmp.None? { return; }
      var w := wayTmp.value;
      var gs := CollectGeometries(w.nodeRefs);
      var built := AllGeometries(gs);
      if built.None? { return; }
      var way := w.(geometry := Some(WayShape(built.value)));
      if HasName(way) {
        converted := converted + [way];
        numNamedEntities := numNamedEntities + 1;
      }
      wayIndex := PutIfPresent(wayIndex, way.id, way.geometry);
      numWays := numWays + 1;
      wayTmp := None;
    }

    /** A relation end in the relation scan: the temporary indices are kept
      * exactly when the relation is wanted, and a kept reference to another
      * relation asks for a rescan; then the temporaries and the flag are
      * reset. */
    method EndRelationScan()
      requires scanRelations && !scanWays
      modifies this`nodeIndex, this`wayIndex, this`relationIndex, this`rescanRelations
      modifies this`tmpNodeIndex, this`tmpWayIndex, this`tmpRelationIndex, this`keepIndexed
      ensures old(keepIndexed) ==>
        nodeIndex == Promote(old(nodeIndex), old(tmpNodeIndex)) &&
        wayIndex == Promote(old(wayIndex), old(tmpWayIndex)) &&
        relationIndex == Promote(old(relationIndex), old(tmpRelationIndex)) &&
        rescanRelations == (old(rescanRelations) || old(tmpRelationIndex) != {})
      ensures !old(keepIndexed) ==>
        nodeIndex == old(nodeIndex) && wayIndex == old(wayIndex) && relationIndex == old(relationIndex) &&
        rescanRelations == old(rescanRelations)
      ensures Fresh()
    {
      if keepIndexed {
        nodeIndex := Promote(nodeIndex, tmpNodeIndex);
        wayIndex := Promote(wayIndex, tmpWayIndex);
        relationIndex := Promote(relationIndex, tmpRelationIndex);
        if tmpRelationIndex != {} {
          rescanRelations := true;
        }
      }
      tmpNodeIndex, tmpWayIndex, tmpRelationIndex := {}, {}, {};
      keepIndexed := false;
    }

    /** A relation end in the parse phase: a relation the builder cannot
      * complete yet joins the incomplete list; otherwise a named one is
      * converted, a referenced one's geometry is stored, and it is counted. */
    method EndRelationParse()
      requires !Scanning()
      modifies this`relationTmp, this`converted, this`numNamedEntities, this`relationIndex, this`numRelations
      modifies this`incompleteRelations
      ensures old(relationTmp).None? ==>
        relationTmp == old(relationTmp) && converted == old(converted) && numNamedEntities == old(numNamedEntities) &&
        relationIndex == old(relationIndex) && numRelations == old(numRelations) && incompleteRelations == old(incompleteRelations)
      ensures old(relationTmp).Some? ==>
        var r := old(relationTmp).value;
        var rec := createRelationRecord(r, nodeIndex, wayIndex, old(relationIndex));
        relationTmp.None? &&
        (rec.None? ==>
          incompleteRelations == old(incompleteRelations) + [r] && converted == old(converted) &&
          numNamedEntities == old(numNamedEntities) && relationIndex == old(relationIndex) && numRelations == old(numRelations)) &&
        (rec.Some? ==>
          incompleteRelations == old(incompleteRelations) &&
          converted == old(converted) + (if HasName(r) then [r.(geometry := rec)] else []) &&
          numNamedEntities == old(numNamedEntities) + (if HasName(r) then 1 else 0) &&
          relationIndex == PutIfPresent(old(relationIndex), r.id, rec) &&
          numRelations == old(numRelations) + 1)
    {
      if relationTmp.None? { return; }
      var r := relationTmp.value;
      var rec := createRelationRecord(r, nodeIndex, wayIndex, relationIndex);
      if rec.None? {
        incompleteRelations := incompleteRelations + [r];
      } else {
        if HasName(r) {
          converted := converted + [r.(geometry := rec)];
          numNamedEntities := numNamedEntities + 1;
        }
        relationIndex := PutIfPresent(relationIndex, r.id, rec);
        numRelations := numRelations + 1;
      }
      relationTmp := None;
    }

    /** `endElement` during a scan. */
    method EndScan(name: string)
      requires Scanning()
      modifies this`nodeIndex, this`wayIndex, this`relationIndex, this`rescanRelations
      modifies this`tmpNodeIndex, this`tmpWayIndex, this`tmpRelationIndex, this`keepIndexed
      ensures !scanRelations ==> rescanRelations == old(rescanRelations)
      ensures old(rescanRelations) ==> rescanRelations
    {
      if !scanRelations && Is(name, "way") {
        EndWayScan();
      } else if !scanWays && Is(name, "relation") {
        EndRelationScan();
      }
    }

    /** `endElement` in the parse phase. */
    method EndParse(name: string)
      requires !Scanning()
      modifies this`nodeTmp, this`wayTmp, this`relationTmp, this`converted, this`numNamedEntities
      modifies this`nodeIndex, this`wayIndex, this`relationIndex, this`incompleteRelations
      modifies this`numNodes, this`numWays, this`numRelations
      ensures IndexKeys() == old(IndexKeys())
    {
      if Is(name, "node") {
        EndNode();
      } else if Is(name, "way") {
        EndWayParse();
      } else if Is(name, "relation") {
        EndRelationParse();
      }
    }

    /** `endElement`. The parse phase never adds a key to an index, and a scan
      * converts and counts nothing. */
    method End(name: string)
      modifies this`nodeTmp, this`wayTmp, this`relationTmp, this`converted, this`numNamedEntities
      modifies this`nodeIndex, this`wayIndex, this`relationIndex, this`incompleteRelations
      modifies this`numNodes, this`numWays, this`numRelations, this`rescanRelations
      modifies this`tmpNodeIndex, this`tmpWayIndex, this`tmpRelationIndex, this`keepIndexed
      ensures !Scanning() ==> IndexKeys() == old(IndexKeys())
      ensures Scanning() ==> Output() == old(Output())
      ensures !scanRelations ==> rescanRelations == old(rescanRelations)
      ensures old(rescanRelations) ==> rescanRelations
    {
      if Scanning() {
        EndScan(name);
      } else {
        EndParse(name);
      }
    }

    /** The keys of the three global indices. */
    ghost function IndexKeys(): (set<Attr>, set<Attr>, set<Attr>)
      reads this
    {
      (nodeIndex.Keys, wayIndex.Keys, relationIndex.Keys)
    }

    /** What the parse phase produces: converted records, incomplete
      * relations and the four counters. */
    ghost function Output(): (seq<Element>, seq<Element>, nat, nat, nat, nat)
      reads this
    {
      (converted, incompleteRelations, numNamedEntities, numNodes, numWays, numRelations)
    }

    /** One SAX event. */
    method Handle(e: Event)
      modifies this`nodeTmp, this`wayTmp, this`relationTmp, this`converted, this`numNamedEntities
      modifies this`nodeIndex, this`wayIndex, this`relationIndex, this`incompleteRelations
      modifies this`numNodes, this`numWays, this`numRelations, this`rescanRelations
      modifies this`tmpNodeIndex, this`tmpWayIndex, this`tmpRelationIndex, this`keepIndexed
      modifies this`inNode, this`inWay, this`inRelation
      ensures !Scanning() ==> IndexKeys() == old(IndexKeys())
      ensures Scanning() ==> Output() == old(Output())
      ensures !scanRelations ==> rescanRelations == old(rescanRelations)
      ensures old(rescanRelations) ==> rescanRelations
    {
      match e {
        case StartElement(name, attributes) => Start(name, attributes);
        case EndElement(name) => End(name);
      }
    }

    /** One parse of the whole file, event by event. */
    method Feed(events: seq<Event>)
      modifies this`nodeTmp, this`wayTmp, this`relationTmp, this`converted, this`numNamedEntities
      modifies this`nodeIndex, this`wayIndex, this`relationIndex, this`incompleteRelations
      modifies this`numNodes, this`numWays, this`numRelations, this`rescanRelations
      modifies this`tmpNodeIndex, this`tmpWayIndex, this`tmpRelationIndex, this`keepIndexed
      modifies this`inNode, this`inWay, this`inRelation
      modifies this`passes
      ensures passes == old(passes) + [old(CurrentPass())]
      ensures !Scanning() ==> IndexKeys() == old(IndexKeys())
      ensures Scanning() ==> Output() == old(Output())
      ensures !scanRelations ==> rescanRelations == old(rescanRelations)
      ensures old(rescanRelations) ==> rescanRelations
    {
      passes := passes + [CurrentPass()];
      var i := 0;
      while i < |events|
        invariant i <= |events|
        invariant passes == old(passes) + [old(CurrentPass())]
        invariant !Scanning() ==> IndexKeys() == old(IndexKeys())
        invariant Scanning() ==> Output() == old(Output())
        invariant !scanRelations ==> rescanRelations == old(rescanRelations)
        invariant old(rescanRelations) ==> rescanRelations
      {
        Handle(events[i]);
        i := i + 1;
      }
    }

    /** One incomplete relation in the second pass (the body of its loop). */
    method Reexamine(r: Element, kept: seq<Element>, built: nat, named: nat)
      returns (kept': seq<Element>, built': nat, named': nat, failed: bool)
      modifies this`relationIndex, this`converted, this`numNamedEntities, this`numRelations
      ensures RetryOne(Retry(kept, old(relationIndex), old(converted), built, named, false), r, nodeIndex, wayIndex, createRelationRecord)
              == Retry(kept', relationIndex, converted, built', named', failed)
      ensures numRelations == old(numRelations) + (built' - built) && numNamedEntities == old(numNamedEntities) + (named' - named)
    {
      kept', built', named', failed := kept, built, named, false;
      var rec := createRelationRecord(r, nodeIndex, wayIndex, relationIndex);
      if rec.None? {
        kept' := kept + [r];
        return;
      }
      if HasName(r) {
        converted := converted + [r.(geometry := rec)];
        numNamedEntities := numNamedEntities + 1;
        named' := named + 1;
      }
      var key := SecondPassKey(r.id);
      if key.None? {
        kept', failed := kept + [r], true;
        return;
      }
      relationIndex := PutIfPresent(relationIndex, key.value, rec);
      numRelations := numRelations + 1;
      built' := built + 1;
    }

    /** The second pass over the incomplete relations: each one the builder
      * now completes is converted when named, stored when referenced, counted
      * and removed from the list. It fails, leaving the rest in the list, on
      * a relation whose id is too short for its lookup key. */
    method SecondPass() returns (ok: bool)
      modifies this`incompleteRelations, this`relationIndex, this`converted, this`numNamedEntities, this`numRelations
      ensures var r := RetryAll(old(incompleteRelations), Retry([], old(relationIndex), old(converted), 0, 0, false),
                                nodeIndex, wayIndex, createRelationRecord);
        ok == !r.failed && incompleteRelations == r.kept && relationIndex == r.relationIndex && converted == r.converted &&
        numRelations == old(numRelations) + r.built && numNamedEntities == old(numNamedEntities) + r.named
    {
      var rels := incompleteRelations;
      ghost var init := Retry([], relationIndex, converted, 0, 0, false);
      var kept: seq<Element> := [];
      var built, named := 0, 0;
      var i := 0;
      while i < |rels|
        invariant i <= |rels|
        invariant RetryAll(rels[i..], Retry(kept, relationIndex, converted, built, named, false), nodeIndex, wayIndex, createRelationRecord)
               == RetryAll(rels, init, nodeIndex, wayIndex, createRelationRecord)
        invariant numRelations == old(numRelations) + built && numNamedEntities == old(numNamedEntities) + named
      {
        RetryAllUnfold(rels, i, Retry(kept, relationIndex, converted, built, named, false), nodeIndex, wayIndex, createRelationRecord);
        var failed;
        kept, built, named, failed := Reexamine(rels[i], kept, built, named);
        if failed {
          incompleteRelations := kept + rels[i + 1..];
          return false;
        }
        i := i + 1;
      }
      incompleteRelations := kept;
      return true;
    }

    /** A preliminary scan of the relations or of the ways, from empty
      * temporary indices and a cleared flag. */
    method Scan(events: seq<Event>, relations: bool)
      modifies this`nodeTmp, this`wayTmp, this`relationTmp, this`converted, this`numNamedEntities
      modifies this`nodeIndex, this`wayIndex, this`relationIndex, this`incompleteRelations
      modifies this`numNodes, this`numWays, this`numRelations, this`rescanRelations
      modifies this`tmpNodeIndex, this`tmpWayIndex, this`tmpRelationIndex, this`keepIndexed
      modifies this`inNode, this`inWay, this`inRelation, this`passes, this`scanWays, this`scanRelations
      ensures scanRelations == relations && scanWays == !relations
      ensures passes == old(passes) + [if relations then RelationScan(true) else WayScan(true)]
      ensures !relations ==> rescanRelations == old(rescanRelations)
      ensures old(rescanRelations) ==> rescanRelations
    {
      scanRelations, scanWays, keepIndexed := relations, !relations, false;
      tmpNodeIndex, tmpWayIndex, tmpRelationIndex := {}, {}, {};
      Feed(events);
    }

    /** The four reads of the file. */
    method ReadFile(events: seq<Event>)
      modifies this`nodeTmp, this`wayTmp, this`relationTmp, this`converted, this`numNamedEntities
      modifies this`nodeIndex, this`wayIndex, this`relationIndex, this`incompleteRelations
      modifies this`numNodes, this`numWays, this`numRelations, this`rescanRelations
      modifies this`tmpNodeIndex, this`tmpWayIndex, this`tmpRelationIndex, this`keepIndexed
      modifies this`inNode, this`inWay, this`inRelation, this`passes, this`scanWays, this`scanRelations
      ensures passes == old(passes) + Plan(rescanRelations)
    {
      ghost var before := passes;
      Scan(events, true);
      ghost var rescan := rescanRelations;
      if rescanRelations {
        Scan(events, true);
      }
      ghost var relationScans := passes;
      assert relationScans == before + Plan(rescan)[..|Plan(rescan)| - 2];
      Scan(events, false);
      scanRelations, scanWays := false, false;
      Feed(events);
      assert rescanRelations == rescan;
      assert passes == relationScans + [WayScan(true), FullParse];
      AppendAssoc(before, Plan(rescan)[..|Plan(rescan)| - 2], [WayScan(true), FullParse]);
      assert Plan(rescan)[..|Plan(rescan)| - 2] + [WayScan(true), FullParse] == Plan(rescan);
    }

    /** `parseDocument`: fresh indices and an empty incomplete list, then a
      * relation scan, a second relation scan only when the first asked for
      * it, a way scan and the parse, each scan starting from empty temporary
      * indices; then the second pass, after which the indices are discarded. */
    method ParseDocument(events: seq<Event>) returns (ok: bool)
      modifies this`nodeTmp, this`wayTmp, this`relationTmp, this`converted, this`numNamedEntities
      modifies this`nodeIndex, this`wayIndex, this`relationIndex, this`incompleteRelations
      modifies this`numNodes, this`numWays, this`numRelations, this`rescanRelations
      modifies this`tmpNodeIndex, this`tmpWayIndex, this`tmpRelationIndex, this`keepIndexed
      modifies this`inNode, this`inWay, this`inRelation, this`passes, this`scanWays, this`scanRelations
      ensures passes == old(passes) + Plan(rescanRelations)
      ensures ok ==> nodeIndex == map[] && wayIndex == map[] && relationIndex == map[]
    {
      nodeIndex, wayIndex, relationIndex := map[], map[], map[];
      incompleteRelations := [];
      ReadFile(events);
      ok := SecondPass();
      if ok {
        nodeIndex, wayIndex, relationIndex := map[], map[], map[];
      }
    }
  }
}
