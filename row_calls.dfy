// The `add_node` / `add_edge` calls a builder makes for one pandas row, with
// Python's evaluation order: the key arguments are read first, then the
// keyword arguments left to right; a missing column raises KeyError before
// the call happens, and the calls of a row run until one raises.
module RowCalls {
  import opened Wrappers
  import opened Text
  import opened Values
  import opened OrderedDicts
  import opened Graphs

  /** One keyword argument: copied from a column, a value the builder
    * supplies itself, or a string formatted from columns (`"{}_{}".format(...)`). */
  datatype Field =
    | Col(name: string, column: string)
    | Fixed(name: string, value: Value)
    | Formatted(name: string, parts: seq<KeyPart>)

  /** The value of one keyword argument, or the exception reading it raises. */
  function FieldResult(row: Row, f: Field): (r: Result<Value, PyError>)
    ensures f.Col? ==> r == Cell(row, f.column)
    ensures f.Fixed? ==> r == Success(f.value)
  {
    match f
    case Col(_, c) => Cell(row, c)
    case Fixed(_, v) => Success(v)
    case Formatted(_, parts) =>
      var s :- KeyOf(row, "", parts);
      Success(Str(s))
  }

  predicate FieldsReadable(row: Row, fs: seq<Field>)
  {
    forall i :: 0 <= i < |fs| ==> FieldResult(row, fs[i]).Success?
  }

  /** The keyword arguments, evaluated left to right. */
  function Kwargs(row: Row, fs: seq<Field>): (r: Result<seq<(string, Value)>, PyError>)
    ensures r.Success? <==> FieldsReadable(row, fs)
    ensures r.Success? ==> |r.value| == |fs|
    ensures r.Success? ==> forall i :: 0 <= i < |fs| ==> r.value[i] == (fs[i].name, FieldResult(row, fs[i]).value)
  {
    if |fs| == 0 then Success([])
    else
      var v :- FieldResult(row, fs[0]);
      var rest :- Kwargs(row, fs[1..]);
      assert forall i :: 1 <= i < |fs| ==> fs[i] == fs[1..][i - 1];
      Success([(fs[0].name, v)] + rest)
  }

  /** No keyword is given twice (Python would refuse the call). */
  predicate NamesApart(fs: seq<Field>)
  {
    forall i, j :: 0 <= i < j < |fs| ==> fs[i].name != fs[j].name
  }

  /** Each keyword argument ends up in the attribute dictionary. */
  lemma KwargsValue(row: Row, fs: seq<Field>, i: nat)
    requires Kwargs(row, fs).Success? && NamesApart(fs) && i < |fs|
    ensures var d := FromPairs(Kwargs(row, fs).value);
            fs[i].name in d.vals && d.vals[fs[i].name] == FieldResult(row, fs[i]).value
  {
    FromPairsValue(Kwargs(row, fs).value, i);
  }

  /** One `{}` of a key format: the cell as `str` prints it, or `int(cell)`. */
  datatype KeyPart = Plain(column: string) | AsInt(column: string)

  function PartText(row: Row, p: KeyPart): (r: Result<string, PyError>)
    ensures r.Failure? <==> p.column !in row || (p.AsInt? && ToInt(row[p.column]).Failure?)
    ensures r.Success? && p.Plain? ==> r.value == Format(row[p.column])
    ensures r.Success? && p.AsInt? ==> r.value == IntToString(ToInt(row[p.column]).value)
  {
    var v :- Cell(row, p.column);
    if p.Plain? then Success(Format(v))
    else
      var n :- ToInt(v);
      Success(IntToString(n))
  }

  /** `"<prefix>{}_{}...".format(...)`: the parts joined by `_`. */
  function KeyOf(row: Row, prefix: string, parts: seq<KeyPart>): (r: Result<string, PyError>)
    ensures r.Success? <==> forall i :: 0 <= i < |parts| ==> PartText(row, parts[i]).Success?
    ensures r.Success? ==> StartsWith(r.value, prefix)
  {
    var texts :- PartTexts(row, parts);
    Success(prefix + Join(texts, "_"))
  }

  function PartTexts(row: Row, parts: seq<KeyPart>): (r: Result<seq<string>, PyError>)
    ensures r.Success? <==> forall i :: 0 <= i < |parts| ==> PartText(row, parts[i]).Success?
    ensures r.Success? ==> |r.value| == |parts| && forall i :: 0 <= i < |parts| ==> r.value[i] == PartText(row, parts[i]).value
  {
    if |parts| == 0 then Success([])
    else
      var t :- PartText(row, parts[0]);
      var rest :- PartTexts(row, parts[1..]);
      assert forall i :: 1 <= i < |parts| ==> parts[i] == parts[1..][i - 1];
      Success([t] + rest)
  }

  lemma KeyOfOne(row: Row, prefix: string, p: KeyPart)
    requires PartText(row, p).Success?
    ensures KeyOf(row, prefix, [p]) == Success(prefix + PartText(row, p).value)
  {
    assert PartTexts(row, [p]).value == [PartText(row, p).value];
  }

  lemma KeyOfOneIff(row: Row, prefix: string, p: KeyPart)
    ensures KeyOf(row, prefix, [p]).Success? <==> PartText(row, p).Success?
  {
  }

  lemma KeyOfTwo(row: Row, prefix: string, p: KeyPart, q: KeyPart)
    requires PartText(row, p).Success? && PartText(row, q).Success?
    ensures KeyOf(row, prefix, [p, q]) == Success(prefix + PartText(row, p).value + "_" + PartText(row, q).value)
  {
    var ts := PartTexts(row, [p, q]).value;
    assert ts == [PartText(row, p).value, PartText(row, q).value];
    assert ts[1..] == [PartText(row, q).value];
    assert Join(ts, "_") == ts[0] + "_" + Join(ts[1..], "_");
    var a, b := PartText(row, p).value, PartText(row, q).value;
    assert Join(ts, "_") == a + "_" + b;
    assert prefix + (a + "_" + b) == prefix + a + "_" + b;
  }

  /** `add_node(key, **kwargs)`. */
  function NodeCall(row: Row, prefix: string, parts: seq<KeyPart>, fs: seq<Field>): (r: Result<GraphOp, PyError>)
    ensures r.Success? <==> KeyOf(row, prefix, parts).Success? && FieldsReadable(row, fs)
    ensures r.Success? ==> r.value == AddNodeOp(KeyOf(row, prefix, parts).value, Kwargs(row, fs).value)
  {
    var key :- KeyOf(row, prefix, parts);
    var kw :- Kwargs(row, fs);
    Success(AddNodeOp(key, kw))
  }

  /** `add_edge(u, v, **kwargs)`. */
  function EdgeCall(row: Row, uPrefix: string, uParts: seq<KeyPart>, vPrefix: string, vParts: seq<KeyPart>,
                    fs: seq<Field>): (r: Result<GraphOp, PyError>)
    ensures r.Success? <==> KeyOf(row, uPrefix, uParts).Success? && KeyOf(row, vPrefix, vParts).Success? && FieldsReadable(row, fs)
    ensures r.Success? ==>
              r.value == AddEdgeOp(KeyOf(row, uPrefix, uParts).value, KeyOf(row, vPrefix, vParts).value, Kwargs(row, fs).value)
  {
    var u :- KeyOf(row, uPrefix, uParts);
    var v :- KeyOf(row, vPrefix, vParts);
    var kw :- Kwargs(row, fs);
    Success(AddEdgeOp(u, v, kw))
  }

  /** A call, then the rest of the row; a call that raises ends the row. */
  function Call(r: Result<GraphOp, PyError>, rest: Step): (s: Step)
    ensures r.Failure? ==> s == Raise(r.error)
    ensures r.Success? ==> s.ops == [r.value] + rest.ops && s.failure == rest.failure
  {
    if r.Failure? then Raise(r.error) else Step([r.value] + rest.ops, rest.failure)
  }

  /** `if not isNaN(row[column]): present`. */
  function UnlessMissing(row: Row, column: string, present: Step): (s: Step)
    ensures column !in row ==> s == Raise(KeyError(column))
    ensures column in row && IsNaN(row[column]) ==> s == Do([])
    ensures column in row && !IsNaN(row[column]) ==> s == present
  {
    match Cell(row, column)
    case Failure(e) => Raise(e)
    case Success(v) => if IsNaN(v) then Do([]) else present
  }

  /** `for index, row in df.iterrows(): step(row)`. */
  function EachRow(df: Frame, step: Row -> Step): (r: seq<Step>)
    ensures |r| == |df| && forall i :: 0 <= i < |df| ==> r[i] == step(df[i].1)
  {
    if |df| == 0 then [] else [step(df[0].1)] + EachRow(df[1..], step)
  }

  /** `nlabel=<label>, source=<source>`. */
  function Tag(nlabel: string, source: string): seq<Field>
  {
    [Fixed("nlabel", Str(nlabel)), Fixed("source", Str(source))]
  }

  /** `elabel=<label>, source=<source>`. */
  function Rel(elabel: string, source: string): seq<Field>
  {
    [Fixed("elabel", Str(elabel)), Fixed("source", Str(source))]
  }

  /** No operation sets an attribute of node `key`. */
  predicate LeavesNode(ops: seq<GraphOp>, key: string)
  {
    forall j :: 0 <= j < |ops| && ops[j].AddNodeOp? ==> ops[j].key != key
  }

  /** A node call followed by operations that leave its node alone: each
    * keyword argument is the node's attribute afterwards. */
  lemma NodeCallWrites(g: Graph, row: Row, prefix: string, parts: seq<KeyPart>, fs: seq<Field>,
                       rest: seq<GraphOp>, i: nat)
    requires WellFormed(g) && NodeCall(row, prefix, parts, fs).Success? && NamesApart(fs) && i < |fs|
    requires LeavesNode(rest, NodeCall(row, prefix, parts, fs).value.key)
    ensures Attr(ApplyOps(g, [NodeCall(row, prefix, parts, fs).value] + rest),
                 NodeCall(row, prefix, parts, fs).value.key, fs[i].name)
         == Some(FieldResult(row, fs[i]).value)
  {
    var op := NodeCall(row, prefix, parts, fs).value;
    var ops := [op] + rest;
    KwargsValue(row, fs, i);
    forall j | 0 < j < |ops|
      ensures !Sets(ops[j], op.key, fs[i].name)
    {
      assert ops[j] == rest[j - 1];
    }
    LastWriter(g, ops, 0, op.key, fs[i].name);
  }

  /** Every keyword argument of `fs` is an attribute of node `key` in `h`. */
  predicate Written(h: Graph, key: string, row: Row, fs: seq<Field>)
  {
    forall i :: 0 <= i < |fs| ==> FieldResult(row, fs[i]).Success? && Attr(h, key, fs[i].name) == Some(FieldResult(row, fs[i]).value)
  }

  lemma NodeCallWritesAll(g: Graph, row: Row, prefix: string, parts: seq<KeyPart>, fs: seq<Field>, rest: seq<GraphOp>)
    requires WellFormed(g) && NodeCall(row, prefix, parts, fs).Success? && NamesApart(fs)
    requires LeavesNode(rest, NodeCall(row, prefix, parts, fs).value.key)
    ensures Written(ApplyOps(g, [NodeCall(row, prefix, parts, fs).value] + rest),
                    NodeCall(row, prefix, parts, fs).value.key, row, fs)
  {
    forall i | 0 <= i < |fs|
      ensures Attr(ApplyOps(g, [NodeCall(row, prefix, parts, fs).value] + rest),
                   NodeCall(row, prefix, parts, fs).value.key, fs[i].name)
           == Some(FieldResult(row, fs[i]).value)
    {
      NodeCallWrites(g, row, prefix, parts, fs, rest, i);
    }
  }

  /** The attributes of an `nlabel=..., source=...` call. */
  lemma TagAttrs(row: Row, nlabel: string, source: string)
    ensures Kwargs(row, Tag(nlabel, source)) == Success([("nlabel", Str(nlabel)), ("source", Str(source))])
    ensures FromPairs(Kwargs(row, Tag(nlabel, source)).value).vals == map["nlabel" := Str(nlabel), "source" := Str(source)]
  {
    assert Kwargs(row, Tag(nlabel, source)).value == [("nlabel", Str(nlabel)), ("source", Str(source))];
  }

  /** The attributes of an `elabel=..., source=...` call. */
  lemma RelAttrs(row: Row, elabel: string, source: string)
    ensures Kwargs(row, Rel(elabel, source)) == Success([("elabel", Str(elabel)), ("source", Str(source))])
    ensures FromPairs(Kwargs(row, Rel(elabel, source)).value).vals == map["elabel" := Str(elabel), "source" := Str(source)]
  {
    assert Kwargs(row, Rel(elabel, source)).value == [("elabel", Str(elabel)), ("source", Str(source))];
  }

  /** The common shape of a row: two nodes, then an edge from the first
    * to the second. */
  function Linked(row: Row, uPrefix: string, uParts: seq<KeyPart>, ufs: seq<Field>,
                  vPrefix: string, vParts: seq<KeyPart>, vfs: seq<Field>, efs: seq<Field>): Step
  {
    Call(NodeCall(row, uPrefix, uParts, ufs),
      Call(NodeCall(row, vPrefix, vParts, vfs),
        Call(EdgeCall(row, uPrefix, uParts, vPrefix, vParts, efs), Do([]))))
  }

  /** The calls such a row makes, when none of them raises. */
  lemma LinkedOps(row: Row, uPrefix: string, uParts: seq<KeyPart>, ufs: seq<Field>,
                  vPrefix: string, vParts: seq<KeyPart>, vfs: seq<Field>, efs: seq<Field>)
    ensures Linked(row, uPrefix, uParts, ufs, vPrefix, vParts, vfs, efs).failure.None? <==>
              KeyOf(row, uPrefix, uParts).Success? && FieldsReadable(row, ufs) &&
              KeyOf(row, vPrefix, vParts).Success? && FieldsReadable(row, vfs) && FieldsReadable(row, efs)
    ensures Linked(row, uPrefix, uParts, ufs, vPrefix, vParts, vfs, efs).failure.None? ==>
              var u := KeyOf(row, uPrefix, uParts).value;
              var v := KeyOf(row, vPrefix, vParts).value;
              Linked(row, uPrefix, uParts, ufs, vPrefix, vParts, vfs, efs).ops ==
                [AddNodeOp(u, Kwargs(row, ufs).value), AddNodeOp(v, Kwargs(row, vfs).value), AddEdgeOp(u, v, Kwargs(row, efs).value)]
  {
  }

  /** Such a row raises exactly when one of its arguments cannot be read;
    * otherwise it appends one edge, adds at most its two endpoints and
    * writes the keyword arguments of both (the second wins when the keys
    * coincide). */
  lemma LinkedEffect(g: Graph, row: Row, uPrefix: string, uParts: seq<KeyPart>, ufs: seq<Field>,
                     vPrefix: string, vParts: seq<KeyPart>, vfs: seq<Field>, efs: seq<Field>)
    requires WellFormed(g) && NamesApart(ufs) && NamesApart(vfs)
    ensures Linked(row, uPrefix, uParts, ufs, vPrefix, vParts, vfs, efs).failure.None? <==>
              NodeCall(row, uPrefix, uParts, ufs).Success? && NodeCall(row, vPrefix, vParts, vfs).Success? &&
              FieldsReadable(row, efs)
    ensures Linked(row, uPrefix, uParts, ufs, vPrefix, vParts, vfs, efs).failure.None? ==>
              var u := KeyOf(row, uPrefix, uParts).value;
              var v := KeyOf(row, vPrefix, vParts).value;
              var h := ApplyOps(g, Linked(row, uPrefix, uParts, ufs, vPrefix, vParts, vfs, efs).ops);
              h.edges == g.edges + [Edge(u, v, FromPairs(Kwargs(row, efs).value))] &&
              (forall n :: n in h.nodes.vals <==> n in g.nodes.vals || n == u || n == v) &&
              (forall n, a :: n != u && n != v ==> Attr(h, n, a) == Attr(g, n, a)) &&
              Written(h, v, row, vfs) && (u != v ==> Written(h, u, row, ufs))
  {
    var s := Linked(row, uPrefix, uParts, ufs, vPrefix, vParts, vfs, efs);
    if s.failure.None? {
      var u := KeyOf(row, uPrefix, uParts).value;
      var v := KeyOf(row, vPrefix, vParts).value;
      var ukw := Kwargs(row, ufs).value;
      var vkw := Kwargs(row, vfs).value;
      assert s.ops == [AddNodeOp(u, ukw), AddNodeOp(v, vkw), AddEdgeOp(u, v, Kwargs(row, efs).value)];
      NodesThenEdge(g, u, ukw, v, vkw, Kwargs(row, efs).value);
      var h := ApplyOps(g, s.ops);
      forall i | 0 <= i < |vfs|
        ensures Attr(h, v, vfs[i].name) == Some(FieldResult(row, vfs[i]).value)
      {
        KwargsValue(row, vfs, i);
      }
      if u != v {
        forall i | 0 <= i < |ufs|
          ensures Attr(h, u, ufs[i].name) == Some(FieldResult(row, ufs[i]).value)
        {
          KwargsValue(row, ufs, i);
        }
      }
    }
  }

  /** `Linked` once both keys are known and differ. */
  lemma LinkedKeysEffect(g: Graph, row: Row, uPrefix: string, uParts: seq<KeyPart>, ufs: seq<Field>,
                         vPrefix: string, vParts: seq<KeyPart>, vfs: seq<Field>, efs: seq<Field>, u: string, v: string)
    requires WellFormed(g) && NamesApart(ufs) && NamesApart(vfs)
    requires KeyOf(row, uPrefix, uParts) == Success(u) && KeyOf(row, vPrefix, vParts) == Success(v) && u != v
    ensures Linked(row, uPrefix, uParts, ufs, vPrefix, vParts, vfs, efs).failure.None? <==>
              FieldsReadable(row, ufs) && FieldsReadable(row, vfs) && FieldsReadable(row, efs)
    ensures Linked(row, uPrefix, uParts, ufs, vPrefix, vParts, vfs, efs).failure.None? ==>
              var h := ApplyOps(g, Linked(row, uPrefix, uParts, ufs, vPrefix, vParts, vfs, efs).ops);
              h.edges == g.edges + [Edge(u, v, FromPairs(Kwargs(row, efs).value))] &&
              (forall n :: n in h.nodes.vals <==> n in g.nodes.vals || n == u || n == v) &&
              Written(h, u, row, ufs) && Written(h, v, row, vfs)
  {
    LinkedEffect(g, row, uPrefix, uParts, ufs, vPrefix, vParts, vfs, efs);
  }

  /** `Linked` with keys made of a prefix and one column each, the prefixes
    * differing at some position. */
  lemma LinkedPlainEffect(g: Graph, row: Row, uPrefix: string, uColumn: string, ufs: seq<Field>,
                          vPrefix: string, vColumn: string, vfs: seq<Field>, efs: seq<Field>, at: nat)
    requires WellFormed(g) && NamesApart(ufs) && NamesApart(vfs)
    requires at < |uPrefix| && at < |vPrefix| && uPrefix[at] != vPrefix[at]
    ensures Linked(row, uPrefix, [Plain(uColumn)], ufs, vPrefix, [Plain(vColumn)], vfs, efs).failure.None? <==>
              uColumn in row && vColumn in row && FieldsReadable(row, ufs) && FieldsReadable(row, vfs) && FieldsReadable(row, efs)
    ensures Linked(row, uPrefix, [Plain(uColumn)], ufs, vPrefix, [Plain(vColumn)], vfs, efs).failure.None? ==>
              var u := uPrefix + Format(row[uColumn]);
              var v := vPrefix + Format(row[vColumn]);
              var h := ApplyOps(g, Linked(row, uPrefix, [Plain(uColumn)], ufs, vPrefix, [Plain(vColumn)], vfs, efs).ops);
              h.edges == g.edges + [Edge(u, v, FromPairs(Kwargs(row, efs).value))] &&
              (forall n :: n in h.nodes.vals <==> n in g.nodes.vals || n == u || n == v) &&
              Written(h, u, row, ufs) && Written(h, v, row, vfs)
  {
    LinkedEffect(g, row, uPrefix, [Plain(uColumn)], ufs, vPrefix, [Plain(vColumn)], vfs, efs);
    if uColumn in row {
      KeyOfOne(row, uPrefix, Plain(uColumn));
    }
    if vColumn in row {
      KeyOfOne(row, vPrefix, Plain(vColumn));
    }
    if uColumn in row && vColumn in row {
      PrefixesApart(uPrefix, vPrefix, Format(row[uColumn]), Format(row[vColumn]), at);
    }
  }

  /** A node, then an edge between two keys of the row (one of them
    * usually the node's). */
  function NodeAndEdge(row: Row, prefix: string, parts: seq<KeyPart>, fs: seq<Field>,
                       uPrefix: string, uParts: seq<KeyPart>, vPrefix: string, vParts: seq<KeyPart>, efs: seq<Field>): Step
  {
    Call(NodeCall(row, prefix, parts, fs), Call(EdgeCall(row, uPrefix, uParts, vPrefix, vParts, efs), Do([])))
  }

  lemma NodeAndEdgeOps(row: Row, prefix: string, parts: seq<KeyPart>, fs: seq<Field>,
                       uPrefix: string, uParts: seq<KeyPart>, vPrefix: string, vParts: seq<KeyPart>, efs: seq<Field>)
    ensures NodeAndEdge(row, prefix, parts, fs, uPrefix, uParts, vPrefix, vParts, efs).failure.None? <==>
              KeyOf(row, prefix, parts).Success? && FieldsReadable(row, fs) &&
              KeyOf(row, uPrefix, uParts).Success? && KeyOf(row, vPrefix, vParts).Success? && FieldsReadable(row, efs)
    ensures NodeAndEdge(row, prefix, parts, fs, uPrefix, uParts, vPrefix, vParts, efs).failure.None? ==>
              NodeAndEdge(row, prefix, parts, fs, uPrefix, uParts, vPrefix, vParts, efs).ops ==
                [AddNodeOp(KeyOf(row, prefix, parts).value, Kwargs(row, fs).value),
                 AddEdgeOp(KeyOf(row, uPrefix, uParts).value, KeyOf(row, vPrefix, vParts).value, Kwargs(row, efs).value)]
  {
  }

  lemma NodeAndEdgeEffect(g: Graph, row: Row, prefix: string, parts: seq<KeyPart>, fs: seq<Field>,
                          uPrefix: string, uParts: seq<KeyPart>, vPrefix: string, vParts: seq<KeyPart>, efs: seq<Field>)
    requires WellFormed(g) && NamesApart(fs)
    ensures NodeAndEdge(row, prefix, parts, fs, uPrefix, uParts, vPrefix, vParts, efs).failure.None? <==>
              NodeCall(row, prefix, parts, fs).Success? && EdgeCall(row, uPrefix, uParts, vPrefix, vParts, efs).Success?
    ensures NodeAndEdge(row, prefix, parts, fs, uPrefix, uParts, vPrefix, vParts, efs).failure.None? ==>
              var k := KeyOf(row, prefix, parts).value;
              var u := KeyOf(row, uPrefix, uParts).value;
              var v := KeyOf(row, vPrefix, vParts).value;
              var h := ApplyOps(g, NodeAndEdge(row, prefix, parts, fs, uPrefix, uParts, vPrefix, vParts, efs).ops);
              h.edges == g.edges + [Edge(u, v, FromPairs(Kwargs(row, efs).value))] &&
              (forall n :: n in h.nodes.vals <==> n in g.nodes.vals || n == k || n == u || n == v) &&
              (forall n, a :: n != k ==> Attr(h, n, a) == Attr(g, n, a)) &&
              Written(h, k, row, fs)
  {
    var s := NodeAndEdge(row, prefix, parts, fs, uPrefix, uParts, vPrefix, vParts, efs);
    if s.failure.None? {
      var k := KeyOf(row, prefix, parts).value;
      var kw := Kwargs(row, fs).value;
      var e := EdgeCall(row, uPrefix, uParts, vPrefix, vParts, efs).value;
      assert s.ops == [AddNodeOp(k, kw), AddEdgeOp(e.src, e.dst, e.attrs)];
      NodeThenEdge(g, k, kw, e.src, e.dst, e.attrs);
      var h := ApplyOps(g, s.ops);
      forall i | 0 <= i < |fs|
        ensures Attr(h, k, fs[i].name) == Some(FieldResult(row, fs[i]).value)
      {
        KwargsValue(row, fs, i);
      }
    }
  }

  /** Keys with different prefixes at some position never meet. */
  lemma PrefixesApart(p: string, q: string, x: string, y: string, i: nat)
    requires i < |p| && i < |q| && p[i] != q[i]
    ensures p + x != q + y
  {
    assert (p + x)[i] == p[i];
    assert (q + y)[i] == q[i];
  }
}
