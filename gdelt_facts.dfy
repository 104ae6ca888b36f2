// What one GDELT record does to the graph: the tone it carries, the single
// theme / person / organization it links, the locations it mentions, and
// why none of these ever overwrites the article.
module GdeltFacts {
  import opened Wrappers
  import opened Text
  import opened Values
  import opened OrderedDicts
  import opened Graphs
  import opened RowCalls
  import opened GdeltGraph

  // ---- Tone ---------------------------------------------------------------------

  /** A missing tone is seven zeros. */
  lemma MissingTone()
    ensures Tone(Missing).Success? && |Tone(Missing).value| == 7
    ensures forall i :: 0 <= i < 7 ==> Tone(Missing).value[i] == Int(0)
  {
  }

  /** A tone written as comma-separated parts gives those parts back, one
    * attribute each. */
  lemma ToneOfJoin(parts: seq<string>)
    requires |parts| >= 1 && forall i :: 0 <= i < |parts| ==> ',' !in parts[i]
    ensures Tone(Str(Join(parts, ","))) == Success(Strs(parts))
  {
    SplitJoin(parts, ',');
  }

  // ---- The article call ------------------------------------------------------------

  lemma ArticleNamesApart()
    ensures forall i, j :: 0 <= i < j < |ArticleHead| ==> ArticleHead[i].name != ArticleHead[j].name
    ensures forall i :: 0 <= i < |ArticleHead| ==> ArticleHead[i].name !in ToneNames && ArticleHead[i].name != "counts" && ArticleHead[i].name != "source"
    ensures forall i, j :: 0 <= i < j < 7 ==> ToneNames[i] != ToneNames[j]
    ensures "counts" !in ToneNames && "source" !in ToneNames
  {
  }

  /** The article call raises exactly when a column it reads is absent or
    * the tone has fewer than seven parts; otherwise its key is
    * `GD_A_<GKGRECORDID>` and its attributes are the head columns, the seven
    * tone parts in order, the counts and the source. */
  lemma ArticleCallMeaning(row: Row, tone: seq<Value>)
    ensures ArticleCall(row, tone).Success? <==>
              "GKGRECORDID" in row && FieldsReadable(row, ArticleHead) && |tone| >= 7 && FieldsReadable(row, ArticleTail)
    ensures ArticleCall(row, tone).Success? ==>
              ArticleCall(row, tone).value ==
                AddNodeOp(ArticlePrefix + Format(row["GKGRECORDID"]),
                          Kwargs(row, ArticleHead).value + TonePairs(tone) + Kwargs(row, ArticleTail).value)
  {
    KeyOfOneIff(row, ArticlePrefix, Plain("GKGRECORDID"));
    if "GKGRECORDID" in row {
      KeyOfOne(row, ArticlePrefix, Plain("GKGRECORDID"));
    }
  }

  /** Every tone part is an attribute of the article, under its own name. */
  lemma ArticleTone(row: Row, tone: seq<Value>, i: nat)
    requires ArticleCall(row, tone).Success? && i < 7
    ensures var d := FromPairs(ArticleCall(row, tone).value.attrs);
            ToneNames[i] in d.vals && d.vals[ToneNames[i]] == tone[i]
  {
    ArticleCallMeaning(row, tone);
    var head := Kwargs(row, ArticleHead).value;
    var tail := Kwargs(row, ArticleTail).value;
    var pairs := head + TonePairs(tone) + tail;
    var at := |head| + i;
    ArticleNamesApart();
    assert pairs[at] == (ToneNames[i], tone[i]);
    forall j | at < j < |pairs|
      ensures pairs[j].0 != ToneNames[i]
    {
      if j < |head| + 7 {
        assert pairs[j] == TonePairs(tone)[j - |head|];
      } else {
        assert pairs[j] == tail[j - |head| - 7];
        assert tail[j - |head| - 7].0 == ArticleTail[j - |head| - 7].name;
      }
    }
    FromPairsValue(pairs, at);
  }

  // ---- Mentions -----------------------------------------------------------------------

  /** Only the first `;` entry of a mention column is ever read. */
  lemma FirstEntryIgnoresRest(a: string, b: string)
    requires ';' !in a
    ensures FirstEntry(a + ";" + b) == FirstEntry(a)
  {
    SplitAfterPiece(a, ';', b);
    SplitWithoutSeparator(a, ';');
    assert a + ";" + b == a + [';'] + b;
  }

  /** An entry `name,position` unpacks into its name and position. */
  lemma FirstEntryPair(name: string, pos: string)
    requires ';' !in name && ';' !in pos && ',' !in name && ',' !in pos
    ensures FirstEntry(name + "," + pos) == Success((name, pos))
  {
    var s := name + "," + pos;
    assert ';' !in s by {
      assert forall c :: c in s ==> c in name || c == ',' || c in pos;
    }
    SplitWithoutSeparator(s, ';');
    SplitJoin([name, pos], ',');
    assert Join([name, pos], ",") == s by {
      JoinCons(name, [pos], ",");
    }
  }

  /** A mention column raises exactly when it is absent, holds a non-string
    * or its first entry does not unpack into two values; it adds nothing
    * when missing or when the name is empty; otherwise it adds the node
    * `GD_<initial>_<name>` and one edge from the article to it. */
  lemma MentionStepMeaning(row: Row, m: Mention, article: string)
    requires |m.nlabel| > 0
    ensures MentionStep(row, m, article).failure.None? <==>
              m.column in row && (IsNaN(row[m.column]) || (row[m.column].Str? && FirstEntry(row[m.column].s).Success?))
    ensures MentionStep(row, m, article).failure.None? && (IsNaN(row[m.column]) || FirstEntry(row[m.column].s).value.0 == "") ==>
              MentionStep(row, m, article).ops == []
    ensures MentionStep(row, m, article).failure.None? && !IsNaN(row[m.column]) && FirstEntry(row[m.column].s).value.0 != "" ==>
              var (name, pos) := FirstEntry(row[m.column].s).value;
              MentionStep(row, m, article).ops ==
                [AddNodeOp(MentionKey(m.nlabel, name), [("nlabel", Str(m.nlabel)), ("name", Str(name)), ("source", Str(Source))]),
                 AddEdgeOp(article, MentionKey(m.nlabel, name), [("elabel", Str(m.elabel)), ("source", Str(Source)), ("position", Str(pos))])]
  {
  }

  /** Mention nodes never share a key with an article or a location, nor
    * with a mention of another kind. */
  lemma MentionKeysApart(name: string, x: string)
    ensures MentionKey(Theme.nlabel, name) != ArticlePrefix + x
    ensures MentionKey(Person.nlabel, name) != ArticlePrefix + x
    ensures MentionKey(Organization.nlabel, name) != ArticlePrefix + x
    ensures MentionKey(Theme.nlabel, name) != LocationPrefix + x
    ensures MentionKey(Person.nlabel, name) != LocationPrefix + x
    ensures MentionKey(Organization.nlabel, name) != LocationPrefix + x
    ensures MentionKey(Theme.nlabel, name) != MentionKey(Person.nlabel, x)
    ensures MentionKey(Theme.nlabel, name) != MentionKey(Organization.nlabel, x)
    ensures MentionKey(Person.nlabel, name) != MentionKey(Organization.nlabel, x)
  {
    assert MentionKey(Theme.nlabel, name)[3] == 'T';
    assert MentionKey(Person.nlabel, name)[3] == 'P';
    assert MentionKey(Organization.nlabel, name)[3] == 'O';
    assert (ArticlePrefix + x)[3] == 'A';
    assert (LocationPrefix + x)[3] == 'L';
    assert MentionKey(Person.nlabel, x)[3] == 'P';
    assert MentionKey(Organization.nlabel, x)[3] == 'O';
  }

  /** A mention never writes the article's node. */
  lemma MentionLeavesArticle(row: Row, m: Mention, x: string)
    requires m == Theme || m == Person || m == Organization
    ensures LeavesNode(MentionStep(row, m, ArticlePrefix + x).ops, ArticlePrefix + x)
  {
    var s := MentionStep(row, m, ArticlePrefix + x);
    MentionStepMeaning(row, m, ArticlePrefix + x);
    if s.failure.None? && !IsNaN(row[m.column]) && FirstEntry(row[m.column].s).value.0 != "" {
      MentionKeysApart(FirstEntry(row[m.column].s).value.0, x);
    }
  }

  // ---- Locations ------------------------------------------------------------------------

  /** When every entry has nine `#` parts, the table is those parts. */
  lemma FullTable(s: string)
    requires forall i :: 0 <= i < |Split(s, ';')| ==> |Split(Split(s, ';')[i], '#')| == 9
    ensures Width(Entries(s)) == 9
    ensures forall i :: 0 <= i < |LocationTable(s)| ==> LocationTable(s)[i] == Strs(Split(Split(s, ';')[i], '#'))
  {
    var i :| 0 <= i < |Entries(s)| && |Entries(s)[i]| == Width(Entries(s));
  }

  /** The edges of the location rows: one MENTIONS edge per row, from the
    * article to `GD_L_<FeatureID>`, in order. */
  function LocationEdges(article: string, t: seq<seq<Value>>): (r: seq<Edge>)
    requires forall i :: 0 <= i < |t| ==> |t[i]| == 9
  {
    if |t| == 0 then []
    else [Edge(article, LocationPrefix + Format(t[0][7]),
               FromPairs([("elabel", Str("MENTIONS")), ("source", Str(Source)), ("position", t[0][8])]))]
         + LocationEdges(article, t[1..])
  }

  lemma {:induction false} TableEdges(article: string, t: seq<seq<Value>>)
    requires forall i :: 0 <= i < |t| ==> |t[i]| == 9
    ensures EdgesOf(TableOps(article, t)) == LocationEdges(article, t)
    ensures |LocationEdges(article, t)| == |t|
    ensures forall i :: 0 <= i < |t| ==> LocationEdges(article, t)[i].src == article &&
                                         LocationEdges(article, t)[i].dst == LocationPrefix + Format(t[i][7])
    decreases |t|
  {
    if |t| > 0 {
      var ops := LocationOps(article, t[0]);
      TableEdges(article, t[1..]);
      EdgesOfAppend(ops, TableOps(article, t[1..]));
      EdgesOfCons(ops);
      assert ops[1..] == [ops[1]];
      EdgesOfCons(ops[1..]);
      assert ops[1..][1..] == [];
      forall i | 1 <= i < |t|
        ensures LocationEdges(article, t)[i] == LocationEdges(article, t[1..])[i - 1]
      {
      }
    }
  }

  /** Location rows only write location nodes. */
  lemma {:induction false} TableLeavesArticle(x: string, t: seq<seq<Value>>)
    requires forall i :: 0 <= i < |t| ==> |t[i]| == 9
    ensures LeavesNode(TableOps(ArticlePrefix + x, t), ArticlePrefix + x)
    decreases |t|
  {
    if |t| > 0 {
      var first: seq<GraphOp> := LocationOps(ArticlePrefix + x, t[0]);
      var rest: seq<GraphOp> := TableOps(ArticlePrefix + x, t[1..]);
      TableLeavesArticle(x, t[1..]);
      PrefixesApart(LocationPrefix, ArticlePrefix, Format(t[0][7]), x, 3);
      forall j | 0 <= j < |first + rest| && (first + rest)[j].AddNodeOp?
        ensures (first + rest)[j].key != ArticlePrefix + x
      {
        if j >= |first| {
          assert (first + rest)[j] == rest[j - |first|];
        }
      }
    }
  }

  /** A present locations field raises only if it is not a string; it adds
    * one MENTIONS edge per entry when the table has exactly nine columns and
    * nothing otherwise. */
  lemma LocationsMeaning(row: Row, article: string)
    ensures LocationsStep(row, article).failure.None? <==>
              "ENHANCEDLOCATIONS" in row && (IsNaN(row["ENHANCEDLOCATIONS"]) || row["ENHANCEDLOCATIONS"].Str?)
    ensures LocationsStep(row, article).failure.None? && !IsNaN(row["ENHANCEDLOCATIONS"]) ==>
              var s := row["ENHANCEDLOCATIONS"].s;
              EdgesOf(LocationsStep(row, article).ops) ==
                if Width(Entries(s)) == 9 then LocationEdges(article, LocationTable(s)) else []
    ensures LocationsStep(row, article).failure.None? && !IsNaN(row["ENHANCEDLOCATIONS"]) &&
            Width(Entries(row["ENHANCEDLOCATIONS"].s)) == 9 ==>
              |EdgesOf(LocationsStep(row, article).ops)| == |Split(row["ENHANCEDLOCATIONS"].s, ';')|
  {
    if "ENHANCEDLOCATIONS" in row && row["ENHANCEDLOCATIONS"].Str? {
      var s := row["ENHANCEDLOCATIONS"].s;
      if Width(Entries(s)) == 9 {
        TableEdges(article, LocationTable(s));
      }
    }
  }

  /** An entry with fewer parts than the widest one is padded with None, so
    * its location is keyed `GD_L_None`. */
  lemma ShortEntryKey(s: string, i: nat)
    requires i < |Split(s, ';')| && Width(Entries(s)) == 9 && |Split(Split(s, ';')[i], '#')| <= 7
    ensures LocationTable(s)[i][7] == Null
    ensures LocationOps("", LocationTable(s)[i])[0].key == "GD_L_None"
  {
    var r := LocationTable(s)[i];
    var pieces := Entries(s)[i];
    assert r == Padded(pieces, 9);
    assert |pieces| <= 7;
    assert r[7] == Null;
    NullKey(r);
  }

  lemma NullKey(r: seq<Value>)
    requires |r| == 9 && r[7] == Null
    ensures LocationOps("", r)[0].key == "GD_L_None"
  {
    assert Format(Null) == "None";
  }

  // ---- The whole record ---------------------------------------------------------------------

  /** A record that does not raise is the article call, the three mention
    * parts and the locations, in this order. */
  lemma RecordOps(row: Row)
    requires RecordStep(row).failure.None?
    ensures "5TONE" in row && Tone(row["5TONE"]).Success? && ArticleCall(row, Tone(row["5TONE"]).value).Success?
    ensures var op := ArticleCall(row, Tone(row["5TONE"]).value).value;
            op.AddNodeOp? && op.key == ArticlePrefix + Format(row["GKGRECORDID"]) &&
            MentionStep(row, Theme, op.key).failure.None? && MentionStep(row, Person, op.key).failure.None? &&
            MentionStep(row, Organization, op.key).failure.None? && LocationsStep(row, op.key).failure.None? &&
            RecordStep(row).ops == [op] + (MentionStep(row, Theme, op.key).ops + (MentionStep(row, Person, op.key).ops +
                                   (MentionStep(row, Organization, op.key).ops + LocationsStep(row, op.key).ops)))
  {
    var tone := Tone(row["5TONE"]).value;
    ArticleCallMeaning(row, tone);
  }

  /** Nothing after the article call writes the article's node, so every
    * attribute the call sets (the seven tone parts among them) is the
    * article's afterwards. */
  lemma RecordKeepsArticle(g: Graph, row: Row, i: nat)
    requires WellFormed(g) && RecordStep(row).failure.None? && i < 7
    ensures "5TONE" in row && Tone(row["5TONE"]).Success? && |Tone(row["5TONE"]).value| >= 7 && "GKGRECORDID" in row
    ensures Attr(ApplyOps(g, RecordStep(row).ops), ArticlePrefix + Format(row["GKGRECORDID"]), ToneNames[i])
            == Some(Tone(row["5TONE"]).value[i])
  {
    RecordOps(row);
    var tone := Tone(row["5TONE"]).value;
    ArticleCallMeaning(row, tone);
    var op := ArticleCall(row, tone).value;
    var x := Format(row["GKGRECORDID"]);
    var t := MentionStep(row, Theme, op.key).ops;
    var p := MentionStep(row, Person, op.key).ops;
    var o := MentionStep(row, Organization, op.key).ops;
    var l := LocationsStep(row, op.key).ops;
    MentionLeavesArticle(row, Theme, x);
    MentionLeavesArticle(row, Person, x);
    MentionLeavesArticle(row, Organization, x);
    LocationsLeaveArticle(row, x);
    LeavesAll(t, p, o, l, op.key);
    ArticleTone(row, tone, i);
    ArticleWritten(g, op, t + (p + (o + l)), ToneNames[i], tone[i]);
  }

  lemma LocationsLeaveArticle(row: Row, x: string)
    ensures LeavesNode(LocationsStep(row, ArticlePrefix + x).ops, ArticlePrefix + x)
  {
    if "ENHANCEDLOCATIONS" in row && row["ENHANCEDLOCATIONS"].Str? && Width(Entries(row["ENHANCEDLOCATIONS"].s)) == 9 {
      TableLeavesArticle(x, LocationTable(row["ENHANCEDLOCATIONS"].s));
    }
  }

  lemma LeavesAll(t: seq<GraphOp>, p: seq<GraphOp>, o: seq<GraphOp>, l: seq<GraphOp>, key: string)
    requires LeavesNode(t, key) && LeavesNode(p, key) && LeavesNode(o, key) && LeavesNode(l, key)
    ensures LeavesNode(t + (p + (o + l)), key)
  {
    LeavesJoin(o, l, key);
    LeavesJoin(p, o + l, key);
    LeavesJoin(t, p + (o + l), key);
  }

  lemma LeavesJoin(a: seq<GraphOp>, b: seq<GraphOp>, key: string)
    requires LeavesNode(a, key) && LeavesNode(b, key)
    ensures LeavesNode(a + b, key)
  {
    forall j | 0 <= j < |a + b| && (a + b)[j].AddNodeOp?
      ensures (a + b)[j].key != key
    {
      if j >= |a| {
        assert (a + b)[j] == b[j - |a|];
      }
    }
  }

  /** A node call's attribute survives operations that leave the node alone. */
  lemma ArticleWritten(g: Graph, op: GraphOp, rest: seq<GraphOp>, a: string, v: Value)
    requires WellFormed(g) && op.AddNodeOp? && LeavesNode(rest, op.key)
    requires a in FromPairs(op.attrs).vals && FromPairs(op.attrs).vals[a] == v
    ensures Attr(ApplyOps(g, [op] + rest), op.key, a) == Some(v)
  {
    var ops := [op] + rest;
    forall j | 0 < j < |ops|
      ensures !Sets(ops[j], op.key, a)
    {
      assert ops[j] == rest[j - 1];
    }
    LastWriter(g, ops, 0, op.key, a);
  }
}
