// OSMWrangle's `OsmCsvConverter`: turns each OSM record that has a category
// into one `|`-separated line of a CSV file. A mapping file names output
// columns and, for each, the OSM tags whose values go into it; the tags no
// column takes are kept, serialised, in a last OTHER_TAGS column.
//
// The entries of the mapping file (a Java `Properties`), the order in which
// the tag map is iterated, the JSON serialisation of the remaining tags and
// the decimal text of the coordinates are parameters; the written lines are
// collected in `rows`.
module OsmCsvConverter {
  import opened Wrappers
  import opened Text
  import OsmAssistant

  /** `Constants.OUTPUT_CSV_HEADER`, split at its delimiter. */
  const BaseHeader: seq<string> := ["ID", "NAME", "CATEGORY", "SUBCATEGORY", "LON", "LAT", "SRID", "WKT"]

  /** Every CR LF, lone CR and lone LF becomes one space
    * (`replaceAll("\\r\\n|\\r|\\n", " ")`). */
  function NewlinesToSpaces(s: string): (r: string)
    ensures '\r' !in r && '\n' !in r
    ensures '\r' !in s && '\n' !in s ==> r == s
    ensures '|' !in s ==> '|' !in r
    decreases |s|
  {
    if |s| == 0 then ""
    else if |s| >= 2 && s[0] == '\r' && s[1] == '\n' then " " + NewlinesToSpaces(s[2..])
    else if s[0] == '\r' || s[0] == '\n' then " " + NewlinesToSpaces(s[1..])
    else [s[0]] + NewlinesToSpaces(s[1..])
  }

  /** Replacing one character keeps out every other character that neither
    * the string nor the replacement contains. */
  lemma {:induction false} ReplaceCharWithout(s: string, c: char, rep: string, d: char)
    requires d !in s && d !in rep
    ensures d !in ReplaceChar(s, c, rep)
    decreases |s|
  {
    if |s| > 0 {
      ReplaceCharWithout(s[1..], c, rep, d);
    }
  }

  /** `formatString`: line breaks become spaces, `|` becomes `;`, and the
    * result is trimmed. */
  function FormatString(str: string): (r: string)
  {
    Trim(ReplaceChar(NewlinesToSpaces(str), '|', ";"))
  }

  /** A formatted value holds no delimiter and no line break, so it stays one
    * field of one line. */
  lemma FormatStringSafe(str: string)
    ensures var r := FormatString(str);
      '|' !in r && '\r' !in r && '\n' !in r
  {
    var n := NewlinesToSpaces(str);
    var f := ReplaceChar(n, '|', ";");
    ReplaceCharWithout(n, '|', ";", '\r');
    ReplaceCharWithout(n, '|', ";", '\n');
    TrimWithout(f, '|');
    TrimWithout(f, '\r');
    TrimWithout(f, '\n');
  }

  /** Formatting twice is formatting once. */
  lemma FormatStringIdempotent(str: string)
    ensures FormatString(FormatString(str)) == FormatString(str)
  {
    var r := FormatString(str);
    FormatStringSafe(str);
    assert NewlinesToSpaces(r) == r;
    assert ReplaceChar(r, '|', ";") == r;
    if |r| > 0 {
      OsmAssistant.TrimTrimmed(r);
    }
  }

  /** Drops the empty strings at the end. */
  function DropTrailingEmpty(parts: seq<string>): (r: seq<string>)
    ensures |r| <= |parts| && r == parts[..|r|]
    ensures |r| > 0 ==> r[|r| - 1] != ""
    ensures forall i :: |r| <= i < |parts| ==> parts[i] == ""
  {
    if |parts| > 0 && parts[|parts| - 1] == "" then DropTrailingEmpty(parts[..|parts| - 1]) else parts
  }

  /** Java's `s.split(",")`: the string itself when it has no comma;
    * otherwise the pieces without the trailing empty ones. */
  function JavaSplit(s: string, c: char): (r: seq<string>)
    ensures c !in s ==> r == [s]
    ensures forall i :: 0 <= i < |r| ==> c !in r[i]
  {
    if c !in s then [s] else DropTrailingEmpty(Split(s, c))
  }

  /** The tags a mapping value names: quotes removed, the whole trimmed,
    * split at the commas and each piece trimmed. */
  function TagsOf(value: string): (tags: seq<string>)
  {
    TrimAll(TagParts(value))
  }

  /** Each piece trimmed. */
  function TrimAll(parts: seq<string>): (r: seq<string>)
    ensures |r| == |parts|
    decreases |parts|
  {
    if parts == [] then [] else TrimAll(parts[..|parts| - 1]) + [Trim(parts[|parts| - 1])]
  }

  /** The untrimmed pieces of a mapping value. */
  function TagParts(value: string): (parts: seq<string>)
    ensures forall i :: 0 <= i < |parts| ==> ',' !in parts[i]
  {
    JavaSplit(Trim(ReplaceChar(value, '"', "")), ',')
  }

  /** One property of the mapping file: an output column and the tags its
    * value names. */
  datatype Entry = Entry(column: string, tags: seq<string>)

  /** The properties of the mapping file, their values parsed. */
  function ParseEntries(properties: seq<(string, string)>): (es: seq<Entry>)
    ensures |es| == |properties|
    decreases |properties|
  {
    if properties == [] then []
    else
      var last := properties[|properties| - 1];
      ParseEntries(properties[..|properties| - 1]) + [Entry(last.0, TagsOf(last.1))]
  }

  /** The tags of a value, in order, each mapped to `column`; later puts
    * replace earlier ones. */
  function PutTags(m: map<string, string>, tags: seq<string>, column: string): (r: map<string, string>)
    decreases |tags|
  {
    if tags == [] then m else PutTags(m, tags[..|tags| - 1], column)[tags[|tags| - 1] := column]
  }

  /** The tag map after reading the entries in order. */
  function AddMapping(m: map<string, string>, es: seq<Entry>): (r: map<string, string>)
    decreases |es|
  {
    if es == [] then m
    else
      var last := es[|es| - 1];
      PutTags(AddMapping(m, es[..|es| - 1]), last.tags, last.column)
  }

  /** The output columns: the columns of the entries, in order. */
  function Columns(es: seq<Entry>): (cols: seq<string>)
    ensures |cols| == |es|
    decreases |es|
  {
    if es == [] then [] else Columns(es[..|es| - 1]) + [es[|es| - 1].column]
  }

  /** Putting the trimmed pieces up to one more piece. */
  lemma PutTrimmedSnoc(m: map<string, string>, parts: seq<string>, i: nat, column: string)
    requires i < |parts|
    ensures PutTags(m, TrimAll(parts[..i + 1]), column) == PutTags(m, TrimAll(parts[..i]), column)[Trim(parts[i]) := column]
  {
    assert parts[..i + 1][..i] == parts[..i];
    var xs := TrimAll(parts[..i + 1]);
    assert xs == TrimAll(parts[..i]) + [Trim(parts[i])];
    assert xs[..|xs| - 1] == TrimAll(parts[..i]);
  }

  /** Reading one more property. */
  lemma ReadSnoc(m: map<string, string>, properties: seq<(string, string)>, j: nat)
    requires j < |properties|
    ensures var e := Entry(properties[j].0, TagsOf(properties[j].1));
      AddMapping(m, ParseEntries(properties[..j + 1])) == PutTags(AddMapping(m, ParseEntries(properties[..j])), e.tags, e.column) &&
      Columns(ParseEntries(properties[..j + 1])) == Columns(ParseEntries(properties[..j])) + [e.column]
  {
    assert properties[..j + 1][..j] == properties[..j];
    var es := ParseEntries(properties[..j + 1]);
    assert es[..j] == ParseEntries(properties[..j]);
  }

  /** A put adds exactly the listed tags, each mapped to the column. */
  lemma {:induction false} PutTagsEffect(m: map<string, string>, tags: seq<string>, column: string, t: string)
    ensures t in PutTags(m, tags, column) <==> t in m || t in tags
    ensures t in tags ==> PutTags(m, tags, column)[t] == column
    ensures t !in tags && t in m ==> PutTags(m, tags, column)[t] == m[t]
    decreases |tags|
  {
    if tags != [] {
      PutTagsEffect(m, tags[..|tags| - 1], column, t);
      assert tags == tags[..|tags| - 1] + [tags[|tags| - 1]];
    }
  }

  /** Every tag of the mapping maps to a column of the mapping (or to what
    * it mapped to before). */
  lemma {:induction false} MappingTargetsColumns(m: map<string, string>, es: seq<Entry>, t: string)
    requires t in AddMapping(m, es)
    ensures AddMapping(m, es)[t] in Columns(es) || (t in m && AddMapping(m, es)[t] == m[t])
    decreases |es|
  {
    if es != [] {
      var init := es[..|es| - 1];
      var last := es[|es| - 1];
      PutTagsEffect(AddMapping(m, init), last.tags, last.column, t);
      if t !in last.tags {
        MappingTargetsColumns(m, init, t);
        assert Columns(init) == Columns(es)[..|init|];
      } else {
        assert Columns(es)[|es| - 1] == last.column;
      }
    }
  }

  /** A tag an entry names goes to the column of the last entry that names
    * it. */
  lemma {:induction false} MappingLastWins(m: map<string, string>, es: seq<Entry>, t: string, i: nat)
    requires i < |es| && t in es[i].tags
    requires forall j :: i < j < |es| ==> t !in es[j].tags
    ensures t in AddMapping(m, es) && AddMapping(m, es)[t] == es[i].column
    decreases |es|
  {
    var init := es[..|es| - 1];
    var last := es[|es| - 1];
    PutTagsEffect(AddMapping(m, init), last.tags, last.column, t);
    if i < |es| - 1 {
      MappingLastWins(m, init, t, i);
    }
  }

  /** A tag no entry names keeps its old mapping, or stays unmapped. */
  lemma {:induction false} MappingUnnamed(m: map<string, string>, es: seq<Entry>, t: string)
    requires forall j :: 0 <= j < |es| ==> t !in es[j].tags
    ensures t in AddMapping(m, es) <==> t in m
    ensures t in m ==> AddMapping(m, es)[t] == m[t]
    decreases |es|
  {
    if es != [] {
      var init := es[..|es| - 1];
      PutTagsEffect(AddMapping(m, init), es[|es| - 1].tags, es[|es| - 1].column, t);
      MappingUnnamed(m, init, t);
    }
  }

  /** The header as written: the base header, `|`, the columns joined by `|`,
    * then `|OTHER_TAGS`. */
  function Header(cols: seq<string>): (h: string)
  {
    Join(BaseHeader, "|") + "|" + Join(cols, "|") + ("|" + "OTHER_TAGS")
  }

  /** The header with one field per column: the same as `Header` whenever
    * there is a column. */
  function CorrectedHeader(cols: seq<string>): (h: string)
  {
    Join(BaseHeader + cols + ["OTHER_TAGS"], "|")
  }

  /** `String.join` of two non-empty lists is the two joins around the
    * delimiter. */
  lemma {:induction false} JoinAppend(xs: seq<string>, ys: seq<string>, sep: string)
    requires |xs| > 0 && |ys| > 0
    ensures Join(xs + ys, sep) == Join(xs, sep) + sep + Join(ys, sep)
    decreases |xs|
  {
    var zs := xs + ys;
    assert zs[0] == xs[0] && zs[1..] == xs[1..] + ys;
    if |xs| > 1 {
      JoinAppend(xs[1..], ys, sep);
      var a, b, c := Join(xs[1..], sep), Join(ys, sep), xs[0] + sep;
      assert Join(zs, sep) == c + (a + sep + b);
      assert Join(xs, sep) == c + a;
    }
  }

  lemma HeaderAgrees(cols: seq<string>)
    requires cols != []
    ensures Header(cols) == CorrectedHeader(cols)
  {
    JoinAround(BaseHeader, cols, "OTHER_TAGS", "|");
  }

  /** Joining three non-empty parts in two steps is joining them at once. */
  lemma JoinAround(base: seq<string>, cols: seq<string>, last: string, sep: string)
    requires base != [] && cols != []
    ensures Join(base, sep) + sep + Join(cols, sep) + (sep + last) == Join(base + cols + [last], sep)
  {
    AppendAssoc(base, cols, [last]);
    JoinAppend(base, cols + [last], sep);
    JoinAppend(cols, [last], sep);
    var b, c := Join(base, sep), Join(cols, sep);
    assert Join([last], sep) == last;
    AppendAssoc(c, sep, last);
    AppendAssoc(b + sep, c, sep + last);
  }

  /** The corrected header has one field per column, between the base
    * fields and OTHER_TAGS, whatever the columns. */
  lemma CorrectedHeaderFields(cols: seq<string>)
    requires NoBar(cols)
    ensures Split(CorrectedHeader(cols), '|') == BaseHeader + cols + ["OTHER_TAGS"]
  {
    BaseHeaderSafe();
    NoBarAppend(BaseHeader, cols);
    NoBarAppend(BaseHeader + cols, ["OTHER_TAGS"]);
    SplitJoin(BaseHeader + cols + ["OTHER_TAGS"], '|');
  }

  lemma BaseHeaderSafe()
    ensures NoBar(BaseHeader)
  {
    forall i | 0 <= i < |BaseHeader| ensures '|' !in BaseHeader[i] {
    }
  }

  /** As written, a converter without columns (the mapping file could not
    * be read) writes a header with an empty field before OTHER_TAGS: ten
    * header fields against nine fields in each row. */
  lemma HeaderWithoutColumns()
    ensures Header([]) == CorrectedHeader([""])
    ensures Split(Header([]), '|') == BaseHeader + [""] + ["OTHER_TAGS"]
    ensures |Split(Header([]), '|')| == |Split(CorrectedHeader([]), '|')| + 1
  {
    assert Header([]) == Header([""]);
    HeaderAgrees([""]);
    CorrectedHeaderFields([""]);
    CorrectedHeaderFields([]);
  }

  /** The geometry of a record, reduced to what a row shows: its WKT text,
    * whether it is empty, and the decimal text of its longitude and latitude. */
  datatype Geometry = Geometry(wkt: string, isEmpty: bool, lon: string, lat: string)

  /** The parts of an `OSMRecord` that a row uses. */
  datatype OsmRecord = OsmRecord(id: string, name: Option<string>, category: Option<string>,
                                 geometry: Option<Geometry>, tags: map<string, string>)

  /** What `parse` does with a record: nothing, count it as rejected, or
    * write a row. */
  datatype Outcome = Skipped | Rejected | Written(row: string)

  /** Every column starts empty (`tagMapRec`). */
  function BlankColumns(cols: seq<string>): (rec: map<string, string>)
    ensures rec.Keys == set c | c in cols
    ensures forall c :: c in rec ==> rec[c] == ""
  {
    map c | c in cols :: ""
  }

  /** The mapped tags visited in `order`, each adding its value to its
    * column; a column missing from `rec` fails (a null dereference). */
  function Fill(rec: map<string, string>, tags: map<string, string>, tagMap: map<string, string>, order: seq<string>): (r: Option<map<string, string>>)
    requires forall k :: k in order ==> k in tagMap
    decreases |order|
  {
    if order == [] then Some(rec)
    else
      match Fill(rec, tags, tagMap, order[..|order| - 1])
      case None => None
      case Some(prev) => FillStep(prev, tags, tagMap[order[|order| - 1]], order[|order| - 1])
  }

  /** One tag: an empty column takes its value, a filled column gets `;` and
    * the value when the value is not empty. */
  function FillStep(rec: map<string, string>, tags: map<string, string>, column: string, key: string): (r: Option<map<string, string>>)
  {
    var value := if key in tags then tags[key] else "";
    if column !in rec then None
    else if rec[column] == "" then Some(rec[column := value])
    else if value != "" then Some(rec[column := rec[column] + ";" + value])
    else Some(rec)
  }

  /** The non-empty values of the tags in `order` that map to `column`. */
  function MappedValues(tags: map<string, string>, tagMap: map<string, string>, order: seq<string>, column: string): (vs: seq<string>)
    requires forall k :: k in order ==> k in tagMap
    ensures forall i :: 0 <= i < |vs| ==> vs[i] != ""
    decreases |order|
  {
    if order == [] then []
    else
      var key := order[|order| - 1];
      var prev := MappedValues(tags, tagMap, order[..|order| - 1], column);
      if tagMap[key] == column && key in tags && tags[key] != "" then prev + [tags[key]] else prev
  }

  /** A join of non-empty values is empty only when there are none. */
  lemma {:induction false} JoinNonEmpty(vs: seq<string>, sep: string)
    requires forall i :: 0 <= i < |vs| ==> vs[i] != ""
    ensures Join(vs, sep) == "" <==> vs == []
    decreases |vs|
  {
    if |vs| > 1 {
      assert |Join(vs, sep)| >= |vs[0]|;
    }
  }

  lemma JoinSnoc(vs: seq<string>, v: string, sep: string)
    requires |vs| > 0
    ensures Join(vs + [v], sep) == Join(vs, sep) + sep + v
  {
    JoinAppend(vs, [v], sep);
  }

  /** When every mapped tag goes to a column, filling never fails and each
    * column holds the `;`-join of the non-empty values of its tags, in the
    * order they were visited. */
  lemma {:induction false} FillJoins(cols: seq<string>, tags: map<string, string>, tagMap: map<string, string>, order: seq<string>)
    requires forall k :: k in order ==> k in tagMap && tagMap[k] in cols
    ensures Fill(BlankColumns(cols), tags, tagMap, order).Some?
    ensures var rec := Fill(BlankColumns(cols), tags, tagMap, order).value;
      rec.Keys == set c | c in cols &&
      forall c :: c in rec ==> rec[c] == Join(MappedValues(tags, tagMap, order, c), ";")
    decreases |order|
  {
    if order != [] {
      var init := order[..|order| - 1];
      var key := order[|order| - 1];
      FillJoins(cols, tags, tagMap, init);
      var prev := Fill(BlankColumns(cols), tags, tagMap, init).value;
      var column := tagMap[key];
      var rec := FillStep(prev, tags, column, key).value;
      forall c | c in rec
        ensures rec[c] == Join(MappedValues(tags, tagMap, order, c), ";")
      {
        var before := MappedValues(tags, tagMap, init, c);
        JoinNonEmpty(before, ";");
        if c == column && key in tags && tags[key] != "" && before != [] {
          JoinSnoc(before, tags[key], ";");
        }
      }
    }
  }

  /** When every mapped tag goes to a column, filling never fails and
    * keeps one entry per column. */
  lemma {:induction false} FillSucceeds(cols: seq<string>, tags: map<string, string>, tagMap: map<string, string>, order: seq<string>)
    requires forall k :: k in order ==> k in tagMap && tagMap[k] in cols
    ensures Fill(BlankColumns(cols), tags, tagMap, order).Some?
    ensures Fill(BlankColumns(cols), tags, tagMap, order).value.Keys == set c | c in cols
    decreases |order|
  {
    if order != [] {
      FillSucceeds(cols, tags, tagMap, order[..|order| - 1]);
    }
  }

  /** The record's tags that no visited key removed. */
  function Unmapped(tags: map<string, string>, order: seq<string>): (r: map<string, string>)
    ensures r.Keys == tags.Keys - set k | k in order
  {
    map k | k in tags && k !in order :: tags[k]
  }

  /** The fields before the mapped columns; `_` in the category becomes `|`,
    * separating category and subcategory. */
  function LeadingFields(rs: OsmRecord, g: Geometry, category: string, targetSRID: int): seq<string>
  {
    [rs.id, if rs.name.Some? then rs.name.value else "null", ReplaceChar(category, '_', "|"),
     if g.isEmpty then "0.0" else g.lon, if g.isEmpty then "0.0" else g.lat, IntToString(targetSRID), g.wkt]
  }

  /** The formatted mapped columns, in column order. */
  function ColumnFields(cols: seq<string>, rec: map<string, string>): (fs: seq<string>)
    requires forall i :: 0 <= i < |cols| ==> cols[i] in rec
    ensures |fs| == |cols|
  {
    seq(|cols|, i requires 0 <= i < |cols| => FormatString(rec[cols[i]]))
  }

  /** The loop over the columns in `parse`: each column's value, formatted. */
  method FormatColumns(cols: seq<string>, rec: map<string, string>) returns (fields: seq<string>)
    requires forall i :: 0 <= i < |cols| ==> cols[i] in rec
    ensures fields == ColumnFields(cols, rec)
  {
    fields := [];
    var k := 0;
    while k < |cols|
      invariant k <= |cols| && |fields| == k
      invariant forall n :: 0 <= n < k ==> fields[n] == FormatString(rec[cols[n]])
    {
      fields := fields + [FormatString(rec[cols[k]])];
      k := k + 1;
    }
  }

  /** What `parse` does with one record, given the columns, the tag map, the
    * order in which the tag map is visited and the serialisation of the
    * remaining tags. A record without a category is skipped; a record
    * without a geometry, or one with a mapped tag whose column is missing,
    * is rejected. */
  function Convert(rs: OsmRecord, cols: seq<string>, tagMap: map<string, string>, order: seq<string>,
                   targetSRID: int, toJson: map<string, string> -> string): (o: Outcome)
    requires forall k :: k in order ==> k in tagMap
  {
    if rs.category.None? then Skipped
    else if rs.geometry.None? then Rejected
    else
      FillKeepsKeys(BlankColumns(cols), rs.tags, tagMap, order);
      match Fill(BlankColumns(cols), rs.tags, tagMap, order)
      case None => Rejected
      case Some(rec) =>
        Written(Join(LeadingFields(rs, rs.geometry.value, rs.category.value, targetSRID)
                     + (ColumnFields(cols, rec) + [FormatString(toJson(Unmapped(rs.tags, order)))]), "|"))
  }

  /** Filling with one more key of the order, and the tags it leaves. */
  lemma FillSnoc(rec: map<string, string>, tags: map<string, string>, tagMap: map<string, string>, order: seq<string>, i: nat)
    requires forall k :: k in order ==> k in tagMap
    requires i < |order|
    ensures Fill(rec, tags, tagMap, order[..i + 1]) ==
      match Fill(rec, tags, tagMap, order[..i])
      case None => None
      case Some(prev) => FillStep(prev, tags, tagMap[order[i]], order[i])
    ensures Unmapped(tags, order[..i + 1]) == Unmapped(tags, order[..i]) - {order[i]}
  {
    assert order[..i + 1][..i] == order[..i];
    assert order[..i + 1] == order[..i] + [order[i]];
  }

  /** Once filling fails, filling with a longer order fails too. */
  lemma {:induction false} FillFailureStays(rec: map<string, string>, tags: map<string, string>, tagMap: map<string, string>, order: seq<string>, i: nat)
    requires forall k :: k in order ==> k in tagMap
    requires i <= |order| && Fill(rec, tags, tagMap, order[..i]).None?
    ensures Fill(rec, tags, tagMap, order).None?
    decreases |order| - i
  {
    if i < |order| {
      FillSnoc(rec, tags, tagMap, order, i);
      FillFailureStays(rec, tags, tagMap, order, i + 1);
    } else {
      assert order[..i] == order;
    }
  }

  /** `Fill` keeps the keys it starts with. */
  lemma {:induction false} FillKeepsKeys(rec: map<string, string>, tags: map<string, string>, tagMap: map<string, string>, order: seq<string>)
    requires forall k :: k in order ==> k in tagMap
    ensures Fill(rec, tags, tagMap, order).Some? ==> Fill(rec, tags, tagMap, order).value.Keys == rec.Keys
    decreases |order|
  {
    if order != [] {
      FillKeepsKeys(rec, tags, tagMap, order[..|order| - 1]);
    }
  }

  /** A record with a category, a geometry and a successful fill is
    * written as the join of its fields. */
  lemma ConvertWritten(rs: OsmRecord, cols: seq<string>, tagMap: map<string, string>, order: seq<string>,
                       targetSRID: int, toJson: map<string, string> -> string)
    requires forall k :: k in order ==> k in tagMap
    requires rs.category.Some? && rs.geometry.Some?
    requires Fill(BlankColumns(cols), rs.tags, tagMap, order).Some?
    requires forall i :: 0 <= i < |cols| ==> cols[i] in Fill(BlankColumns(cols), rs.tags, tagMap, order).value
    ensures Convert(rs, cols, tagMap, order, targetSRID, toJson) ==
      Written(Join(LeadingFields(rs, rs.geometry.value, rs.category.value, targetSRID)
                   + (ColumnFields(cols, Fill(BlankColumns(cols), rs.tags, tagMap, order).value)
                      + [FormatString(toJson(Unmapped(rs.tags, order)))]), "|"))
  {
  }

  /** No formatted column holds the delimiter. */
  lemma ColumnFieldsSafe(cols: seq<string>, rec: map<string, string>)
    requires forall i :: 0 <= i < |cols| ==> cols[i] in rec
    ensures NoBar(ColumnFields(cols, rec))
  {
    var fs := ColumnFields(cols, rec);
    forall i | 0 <= i < |cols| ensures '|' !in fs[i] {
      FormatStringSafe(rec[cols[i]]);
    }
  }

  /** No field holds the delimiter. */
  predicate NoBar(fields: seq<string>)
  {
    forall i :: 0 <= i < |fields| ==> '|' !in fields[i]
  }

  lemma NoBarAppend(xs: seq<string>, ys: seq<string>)
    requires NoBar(xs) && NoBar(ys)
    ensures NoBar(xs + ys)
  {
    forall i | 0 <= i < |xs + ys| ensures '|' !in (xs + ys)[i] {
      if i >= |xs| {
        assert (xs + ys)[i] == ys[i - |xs|];
      }
    }
  }

  /** Splitting at a separator splits both sides. */
  lemma {:induction false} SplitAround(a: string, b: string, sep: char)
    ensures Split(a + [sep] + b, sep) == Split(a, sep) + Split(b, sep)
    decreases |a|
  {
    var s := a + [sep] + b;
    if |a| == 0 {
      assert s[1..] == b;
    } else {
      assert s[0] == a[0] && s[1..] == a[1..] + [sep] + b;
      SplitAround(a[1..], b, sep);
      var r := Split(a[1..], sep);
      var q := Split(b, sep);
      if a[0] == sep {
        assert Split(s, sep) == [""] + (r + q);
        assert Split(a, sep) == [""] + r;
        AppendAssoc([""], r, q);
      } else {
        assert (r + q)[0] == r[0];
        assert (r + q)[1..] == r[1..] + q;
        assert Split(s, sep) == [[a[0]] + r[0]] + (r[1..] + q);
        assert Split(a, sep) == [[a[0]] + r[0]] + r[1..];
        AppendAssoc([[a[0]] + r[0]], r[1..], q);
      }
    }
  }

  /** The shape of a row: seven leading fields, the third holding category
    * and subcategory, then the columns and the remaining tags. */
  lemma RowShape(id: string, name: string, main: string, sub: string, lon: string, lat: string, srid: string, wkt: string,
                 columns: seq<string>, others: string)
    requires '|' !in id && '|' !in name && '|' !in main && '|' !in sub
    requires '|' !in lon && '|' !in lat && '|' !in srid && '|' !in wkt && '|' !in others
    requires NoBar(columns)
    ensures Split(Join([id, name, main + "|" + sub, lon, lat, srid, wkt] + (columns + [others]), "|"), '|')
      == [id, name, main, sub, lon, lat, srid, wkt] + (columns + [others])
  {
    var lead := [id, name, main + "|" + sub, lon, lat, srid, wkt];
    var tail := columns + [others];
    NoBarAppend(columns, [others]);
    JoinAppend(lead, tail, "|");
    SplitAround(Join(lead, "|"), Join(tail, "|"), '|');
    SplitJoin(tail, '|');
    FlattenSecond(id, name, main, sub, [lon, lat, srid, wkt]);
    assert [id, name, main + "|" + sub] + [lon, lat, srid, wkt] == lead;
    assert [id, name, main, sub] + [lon, lat, srid, wkt] == [id, name, main, sub, lon, lat, srid, wkt];
    SplitJoin([id, name, main, sub, lon, lat, srid, wkt], '|');
  }

  /** With every mapped tag going to a column, a record with a category and
    * a geometry is written, and its row, split at `|`, holds: the
    * identifier, the name, the category and the subcategory apart, the
    * coordinates (zero for an empty geometry), the SRID, the WKT, the
    * formatted columns of the filled record and the remaining tags,
    * formatted: one field per field of the header. */
  lemma RowFields(rs: OsmRecord, cols: seq<string>, tagMap: map<string, string>, order: seq<string>,
                  targetSRID: int, toJson: map<string, string> -> string, main: string, sub: string)
    requires forall k :: k in order ==> k in tagMap && tagMap[k] in cols
    requires rs.category == Some(main + "_" + sub) && '_' !in main && '_' !in sub && '|' !in main && '|' !in sub
    requires rs.geometry.Some?
    requires NoBar(cols)
    requires var g := rs.geometry.value;
      '|' !in rs.id && (rs.name.Some? ==> '|' !in rs.name.value) && '|' !in g.wkt && '|' !in g.lon && '|' !in g.lat
    ensures Fill(BlankColumns(cols), rs.tags, tagMap, order).Some?
    ensures forall i :: 0 <= i < |cols| ==> cols[i] in Fill(BlankColumns(cols), rs.tags, tagMap, order).value
    ensures Convert(rs, cols, tagMap, order, targetSRID, toJson).Written?
    ensures var g := rs.geometry.value;
      Split(Convert(rs, cols, tagMap, order, targetSRID, toJson).row, '|') ==
        [rs.id, if rs.name.Some? then rs.name.value else "null", main, sub,
         if g.isEmpty then "0.0" else g.lon, if g.isEmpty then "0.0" else g.lat, IntToString(targetSRID), g.wkt]
        + (ColumnFields(cols, Fill(BlankColumns(cols), rs.tags, tagMap, order).value)
           + [FormatString(toJson(Unmapped(rs.tags, order)))])
    ensures |Split(Convert(rs, cols, tagMap, order, targetSRID, toJson).row, '|')| == |Split(CorrectedHeader(cols), '|')|
  {
    FillSucceeds(cols, rs.tags, tagMap, order);
    var rec := Fill(BlankColumns(cols), rs.tags, tagMap, order).value;
    var g := rs.geometry.value;
    var columns := ColumnFields(cols, rec);
    var others := FormatString(toJson(Unmapped(rs.tags, order)));
    var name := if rs.name.Some? then rs.name.value else "null";
    var lon, lat, srid := if g.isEmpty then "0.0" else g.lon, if g.isEmpty then "0.0" else g.lat, IntToString(targetSRID);
    var row := Join([rs.id, name, main + "|" + sub, lon, lat, srid, g.wkt] + (columns + [others]), "|");
    assert Convert(rs, cols, tagMap, order, targetSRID, toJson) == Written(row) by {
      ReplaceCharSplice(main, sub, '_', "|");
      ConvertWritten(rs, cols, tagMap, order, targetSRID, toJson);
    }
    var fields := [rs.id, name, main, sub, lon, lat, srid, g.wkt] + (columns + [others]);
    assert Split(row, '|') == fields by {
      assert '|' !in name && '|' !in lon && '|' !in lat;
      IntToStringNoBar(targetSRID);
      ColumnFieldsSafe(cols, rec);
      FormatStringSafe(toJson(Unmapped(rs.tags, order)));
      RowShape(rs.id, name, main, sub, lon, lat, srid, g.wkt, columns, others);
    }
    assert |fields| == |Split(CorrectedHeader(cols), '|')| by {
      CorrectedHeaderFields(cols);
    }
  }

  /** Each column field of a written row is the `;`-join of the non-empty
    * values of the tags mapped to that column, in the order the tag map is
    * visited, formatted. */
  lemma ColumnFieldValues(cols: seq<string>, tags: map<string, string>, tagMap: map<string, string>, order: seq<string>)
    requires forall k :: k in order ==> k in tagMap && tagMap[k] in cols
    ensures Fill(BlankColumns(cols), tags, tagMap, order).Some?
    ensures var rec := Fill(BlankColumns(cols), tags, tagMap, order).value;
      (forall i :: 0 <= i < |cols| ==> cols[i] in rec) &&
      (forall i :: 0 <= i < |cols| ==> ColumnFields(cols, rec)[i] == FormatString(Join(MappedValues(tags, tagMap, order, cols[i]), ";")))
  {
    FillJoins(cols, tags, tagMap, order);
  }

  /** Replacing the one separator character between two pieces. */
  lemma ReplaceCharSplice(a: string, b: string, c: char, rep: string)
    requires c !in a && c !in b
    ensures ReplaceChar(a + [c] + b, c, rep) == a + rep + b
  {
    AppendAssoc(a, [c], b);
    ReplaceCharAppend(a, [c] + b, c, rep);
    var s := [c] + b;
    assert s[0] == c && s[1..] == b;
    assert ReplaceChar(s, c, rep) == rep + b;
    AppendAssoc(a, rep, b);
  }

  lemma {:induction false} ReplaceCharAppend(a: string, b: string, c: char, rep: string)
    ensures ReplaceChar(a + b, c, rep) == ReplaceChar(a, c, rep) + ReplaceChar(b, c, rep)
    decreases |a|
  {
    if |a| > 0 {
      ReplaceCharAppend(a[1..], b, c, rep);
      var h := if a[0] == c then rep else [a[0]];
      var ra, rb := ReplaceChar(a[1..], c, rep), ReplaceChar(b, c, rep);
      assert (a + b)[0] == a[0] && (a + b)[1..] == a[1..] + b;
      assert ReplaceChar(a + b, c, rep) == h + (ra + rb);
      assert ReplaceChar(a, c, rep) == h + ra;
      AppendAssoc(h, ra, rb);
    } else {
      assert a + b == b;
    }
  }

  /** A field holding the separator joins like two fields. */
  lemma FlattenSecond(x: string, y: string, a: string, b: string, rest: seq<string>)
    requires |rest| > 0
    ensures Join([x, y, a + "|" + b] + rest, "|") == Join([x, y, a, b] + rest, "|")
  {
    JoinAppend([x, y, a + "|" + b], rest, "|");
    JoinAppend([x, y, a, b], rest, "|");
    assert Join([x, y, a + "|" + b], "|") == Join([x, y, a, b], "|") by {
      JoinCons(x, [y, a + "|" + b], "|");
      JoinCons(y, [a + "|" + b], "|");
      JoinCons(x, [y, a, b], "|");
      JoinCons(y, [a, b], "|");
      JoinCons(a, [b], "|");
    }
  }

  /** The decimal text of an integer holds no delimiter. */
  lemma IntToStringNoBar(i: int)
    ensures '|' !in IntToString(i)
  {
    var digits := NatToString(if i < 0 then -i else i);
    assert '|' !in digits;
  }

  /** The loop over the pieces of a mapping value: maps each trimmed piece
    * to `column`. */
  method PutTrimmed(m: map<string, string>, parts: seq<string>, column: string) returns (r: map<string, string>)
    ensures r == PutTags(m, TrimAll(parts), column)
  {
    r := m;
    var i := 0;
    while i < |parts|
      invariant i <= |parts|
      invariant r == PutTags(m, TrimAll(parts[..i]), column)
    {
      PutTrimmedSnoc(m, parts, i, column);
      r := r[Trim(parts[i]) := column];
      i := i + 1;
    }
    assert parts[..i] == parts;
  }

  class Converter {
    /** The output columns, in mapping order (`cols`). */
    var cols: seq<string>
    /** The output column of each mapped tag (`tagMap`). */
    var tagMap: map<string, string>
    /** The lines written to the CSV file. */
    var rows: seq<string>
    /** Rows written (`numRec`) and records rejected (`rejectedRec`). */
    var numRec: nat
    var rejectedRec: nat

    /** Every mapped tag goes to an output column. */
    predicate Valid()
      reads this
    {
      forall t :: t in tagMap ==> tagMap[t] in cols
    }

    /** Reads the mapping and writes the header. */
    constructor(properties: seq<(string, string)>)
      ensures Valid()
      ensures cols == Columns(ParseEntries(properties)) && tagMap == AddMapping(map[], ParseEntries(properties))
      ensures rows == [CorrectedHeader(cols)] && numRec == 0 && rejectedRec == 0
    {
      cols := [];
      tagMap := map[];
      rows := [];
      numRec := 0;
      rejectedRec := 0;
      new;
      ReadAttrMappingFile(properties);
      rows := [CorrectedHeader(cols)];
      forall t | t in tagMap ensures tagMap[t] in cols {
        MappingTargetsColumns(map[], ParseEntries(properties), t);
      }
    }

    /** `ReadAttrMappingFile`: each property adds its key as a column and
      * maps each tag of its value to that key. */
    method ReadAttrMappingFile(properties: seq<(string, string)>)
      modifies this`cols, this`tagMap
      ensures cols == old(cols) + Columns(ParseEntries(properties))
      ensures tagMap == AddMapping(old(tagMap), ParseEntries(properties))
    {
      var j := 0;
      while j < |properties|
        invariant j <= |properties|
        invariant cols == old(cols) + Columns(ParseEntries(properties[..j]))
        invariant tagMap == AddMapping(old(tagMap), ParseEntries(properties[..j]))
      {
        ReadSnoc(old(tagMap), properties, j);
        AppendAssoc(old(cols), Columns(ParseEntries(properties[..j])), [properties[j].0]);
        ReadProperty(properties[j].0, properties[j].1);
        j := j + 1;
      }
      assert properties[..j] == properties;
    }

    /** One property of the mapping file: its key becomes a column and each
      * tag of its value maps to that key. */
    method ReadProperty(key: string, value: string)
      modifies this`cols, this`tagMap
      ensures cols == old(cols) + [key]
      ensures tagMap == PutTags(old(tagMap), TrimAll(TagParts(value)), key)
    {
      cols := cols + [key];
      tagMap := PutTrimmed(tagMap, TagParts(value), key);
    }

    /** `parse`: writes the row of a record with a category and counts it;
      * a record that fails is counted as rejected. `order` lists the tag
      * map's keys in the order the map yields them. */
    method Parse(rs: OsmRecord, targetSRID: int, order: seq<string>, toJson: map<string, string> -> string)
      requires forall k :: k in order <==> k in tagMap
      requires forall i, j :: 0 <= i < j < |order| ==> order[i] != order[j]
      modifies this`rows, this`numRec, this`rejectedRec
      ensures match Convert(rs, cols, tagMap, order, targetSRID, toJson)
        case Skipped => rows == old(rows) && numRec == old(numRec) && rejectedRec == old(rejectedRec)
        case Rejected => rows == old(rows) && numRec == old(numRec) && rejectedRec == old(rejectedRec) + 1
        case Written(row) => rows == old(rows) + [row] && numRec == old(numRec) + 1 && rejectedRec == old(rejectedRec)
    {
      if rs.category.None? {
        return;
      }
      var category := rs.category.value;
      if rs.geometry.None? {
        rejectedRec := rejectedRec + 1;
        return;
      }
      var g := rs.geometry.value;
      var outArr := LeadingFields(rs, g, category, targetSRID);
      var filled, tags := FillColumns(rs.tags, order);
      if filled.None? {
        assert Convert(rs, cols, tagMap, order, targetSRID, toJson) == Rejected;
        rejectedRec := rejectedRec + 1;
        return;
      }
      var rec := filled.value;
      FillKeepsKeys(BlankColumns(cols), rs.tags, tagMap, order);
      var fields := FormatColumns(cols, rec);
      outArr := outArr + fields;
      AppendAssoc(LeadingFields(rs, g, category, targetSRID), fields, [FormatString(toJson(tags))]);
      outArr := outArr + [FormatString(toJson(tags))];
      assert Convert(rs, cols, tagMap, order, targetSRID, toJson) == Written(Join(outArr, "|"));
      rows := rows + [Join(outArr, "|")];
      numRec := numRec + 1;
    }

    /** The loop over the tag map in `parse`: fills the columns from the
      * record's tags and removes each visited key from them; `None` when a
      * tag maps to a column the record does not have. */
    method FillColumns(tags: map<string, string>, order: seq<string>) returns (filled: Option<map<string, string>>, rest: map<string, string>)
      requires forall k :: k in order ==> k in tagMap
      requires forall i, j :: 0 <= i < j < |order| ==> order[i] != order[j]
      ensures filled == Fill(BlankColumns(cols), tags, tagMap, order)
      ensures filled.Some? ==> rest == Unmapped(tags, order)
    {
      var rec := BlankColumns(cols);
      rest := tags;
      var i := 0;
      while i < |order|
        invariant i <= |order|
        invariant Fill(BlankColumns(cols), tags, tagMap, order[..i]) == Some(rec)
        invariant rest == Unmapped(tags, order[..i])
      {
        var key := order[i];
        var column := tagMap[key];
        var value := if key in rest then rest[key] else "";
        FillSnoc(BlankColumns(cols), tags, tagMap, order, i);
        assert value == if key in tags then tags[key] else "" by {
          assert key !in order[..i];
        }
        if column !in rec {
          FillFailureStays(BlankColumns(cols), tags, tagMap, order, i + 1);
          return None, rest;
        }
        if rec[column] == "" {
          rec := rec[column := value];
        } else if value != "" {
          rec := rec[column := rec[column] + ";" + value];
        }
        rest := rest - {key};
        i := i + 1;
      }
      assert order[..i] == order;
      filled := Some(rec);
    }
  }
}
