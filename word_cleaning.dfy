// The cleaning the generic importer and the gpickle-to-GraphML converter
// apply to node attributes before writing GraphML: list and set values are
// joined with a space, every character outside a kept class becomes `_`, and
// attributes whose value is missing are deleted.
module WordCleaning {
  import opened Text
  import opened Values
  import opened OrderedDicts
  import opened Graphs
  import opened GraphmlCleaning

  /** The character class a substitution `re.sub(r'[^…]', '_', s)` keeps:
    * `[^w]` keeps only the letter `w`, `[^\w]` keeps the word characters. */
  datatype Kept = LetterW | WordChars

  /** A word character of `\w`, narrowed to ASCII letters, digits and `_`. */
  predicate IsWordChar(c: char)
  {
    ('a' <= c <= 'z') || ('A' <= c <= 'Z') || ('0' <= c <= '9') || c == '_'
  }

  predicate Keeps(k: Kept, c: char)
  {
    match k
    case LetterW => c == 'w'
    case WordChars => IsWordChar(c)
  }

  /** `re.sub(r'[^…]', '_', s)`: position by position, a kept character stays
    * and any other becomes `_`, so the length does not change. */
  function Underscored(s: string, k: Kept): (r: string)
    ensures |r| == |s|
    ensures forall i :: 0 <= i < |s| && Keeps(k, s[i]) ==> r[i] == s[i]
    ensures forall i :: 0 <= i < |s| && !Keeps(k, s[i]) ==> r[i] == '_'
  {
    if |s| == 0 then ""
    else [if Keeps(k, s[0]) then s[0] else '_'] + Underscored(s[1..], k)
  }

  /** What the substitution leaves: kept characters and underscores only. */
  predicate OnlyKeptOrUnderscore(s: string, k: Kept)
  {
    forall i :: 0 <= i < |s| ==> Keeps(k, s[i]) || s[i] == '_'
  }

  lemma UnderscoredIsClean(s: string, k: Kept)
    ensures OnlyKeptOrUnderscore(Underscored(s, k), k)
  {
  }

  /** A string made only of kept characters and underscores comes back
    * unchanged; in particular the substitution is idempotent. */
  lemma {:induction false} UnderscoredKeepsClean(s: string, k: Kept)
    requires OnlyKeptOrUnderscore(s, k)
    ensures Underscored(s, k) == s
  {
    if |s| > 0 {
      assert OnlyKeptOrUnderscore(s[1..], k) by {
        forall i | 0 <= i < |s| - 1 ensures Keeps(k, s[1..][i]) || s[1..][i] == '_' {
          assert s[1..][i] == s[i + 1];
        }
      }
      UnderscoredKeepsClean(s[1..], k);
    }
  }

  lemma UnderscoredIdempotent(s: string, k: Kept)
    ensures Underscored(Underscored(s, k), k) == Underscored(s, k)
  {
    UnderscoredKeepsClean(Underscored(s, k), k);
  }

  /** The new value of one attribute: a list or a set is joined with a space,
    * and then a string, joined or not, goes through the substitution. Every
    * other value, the missing one included, is kept. */
  function WordValue(v: Value, k: Kept): (r: Value)
    ensures !r.List? && !r.Set?
    ensures r.Str? ==> OnlyKeptOrUnderscore(r.s, k)
    ensures v.Str? ==> r == Str(Underscored(v.s, k))
    ensures v.List? || v.Set? ==> r == Str(Underscored(Join(v.items, " "), k))
    ensures !v.List? && !v.Set? && !v.Str? ==> r == v
  {
    var joined := if v.List? || v.Set? then Str(Join(v.items, " ")) else v;
    if joined.Str? then
      UnderscoredIsClean(joined.s, k);
      Str(Underscored(joined.s, k))
    else joined
  }

  lemma WordValueIdempotent(v: Value, k: Kept)
    ensures WordValue(WordValue(v, k), k) == WordValue(v, k)
  {
    var r := WordValue(v, k);
    if r.Str? {
      UnderscoredKeepsClean(r.s, k);
    }
  }

  function Worded(k: Kept): Value -> Value
  {
    v => WordValue(v, k)
  }

  /** The attribute names among `ks` whose value is missing, in order. */
  function MissingAmong(ks: seq<string>, m: map<string, Value>): (r: seq<string>)
    ensures forall x :: x in r <==> x in ks && x in m && m[x].Missing?
    ensures (forall i, j :: 0 <= i < j < |ks| ==> ks[i] != ks[j]) ==> forall i, j :: 0 <= i < j < |r| ==> r[i] != r[j]
    ensures (forall x :: x in ks && x in m ==> !m[x].Missing?) ==> r == []
  {
    if |ks| == 0 then []
    else
      var rest := MissingAmong(ks[1..], m);
      assert forall x :: x in ks <==> x == ks[0] || x in ks[1..];
      if ks[0] in m && m[ks[0]].Missing? then
        assert (forall i, j :: 0 <= i < j < |ks| ==> ks[i] != ks[j]) ==> ks[0] !in ks[1..];
        [ks[0]] + rest
      else rest
  }

  /** The keys not among `ks`, in order. */
  function KeysOutside(keys: seq<string>, ks: seq<string>): (r: seq<string>)
    ensures forall x :: x in r <==> x in keys && x !in ks
    ensures (forall i, j :: 0 <= i < j < |keys| ==> keys[i] != keys[j]) ==> forall i, j :: 0 <= i < j < |r| ==> r[i] != r[j]
  {
    if |keys| == 0 then []
    else
      var rest := KeysOutside(keys[1..], ks);
      assert forall x :: x in keys <==> x == keys[0] || x in keys[1..];
      if keys[0] in ks then rest
      else
        assert (forall i, j :: 0 <= i < j < |keys| ==> keys[i] != keys[j]) ==> keys[0] !in keys[1..];
        [keys[0]] + rest
  }

  lemma {:induction false} KeysOutsideStep(keys: seq<string>, ks: seq<string>, k: string)
    ensures Without(KeysOutside(keys, ks), k) == KeysOutside(keys, ks + [k])
  {
    if |keys| > 0 {
      KeysOutsideStep(keys[1..], ks, k);
      assert keys[0] in ks + [k] <==> keys[0] in ks || keys[0] == k;
    }
  }

  /** The attributes left after `del a[key]` for each of `ks`. */
  function RemoveAll(a: Attrs, ks: seq<string>): (r: Attrs)
    ensures r.vals == a.vals - (set k | k in ks)
    ensures a.Valid() ==> r.Valid()
  {
    Dict(KeysOutside(a.keys, ks), a.vals - (set k | k in ks))
  }

  lemma RemoveAllStep(a: Attrs, ks: seq<string>, j: nat)
    requires a.Valid() && j < |ks|
    requires forall x :: x in ks ==> x in a.vals
    requires forall i, i' :: 0 <= i < i' < |ks| ==> ks[i] != ks[i']
    ensures RemoveAll(a, ks[..j]).Valid() && ks[j] in RemoveAll(a, ks[..j]).vals
    ensures RemoveAll(a, ks[..j + 1]) == RemoveAll(a, ks[..j]).Remove(ks[j])
  {
    var pre, k := ks[..j], ks[j];
    assert ks[..j + 1] == pre + [k];
    assert k !in pre;
    KeysOutsideStep(a.keys, pre, k);
    NamesSnoc(pre, k);
    var r := RemoveAll(a, pre);
    assert RemoveAll(a, pre + [k]).keys == r.Remove(k).keys;
    assert RemoveAll(a, pre + [k]).vals == r.Remove(k).vals;
  }

  lemma NamesSnoc(pre: seq<string>, k: string)
    ensures (set x | x in pre + [k]) == (set x | x in pre) + {k}
  {
    assert forall x :: x in pre + [k] <==> x in pre || x == k;
  }

  lemma {:induction false} KeysOutsideNone(keys: seq<string>)
    ensures KeysOutside(keys, []) == keys
  {
    if |keys| > 0 {
      KeysOutsideNone(keys[1..]);
    }
  }

  /** Deleting nothing leaves the attributes as they are. */
  lemma RemoveNone(a: Attrs)
    ensures RemoveAll(a, []) == a
  {
    KeysOutsideNone(a.keys);
    assert a.vals - (set k: string | k in []) == a.vals;
  }

  /** One node's attributes after cleaning: an attribute survives exactly
    * when its value is not missing, with its rewritten value. */
  function CleanAttrs(a: Attrs, k: Kept): (r: Attrs)
    ensures a.Valid() ==> r.Valid()
    ensures a.Valid() ==> forall name :: name in r.vals <==> name in a.vals && !a.vals[name].Missing?
    ensures forall name :: name in r.vals ==> name in a.vals && r.vals[name] == WordValue(a.vals[name], k)
  {
    var w := MapAttrs(a, Worded(k));
    RemoveMissing(w);
    RemoveAll(w, MissingAmong(w.keys, w.vals))
  }

  /** Deleting the names with missing values leaves exactly the others. */
  lemma RemoveMissing(w: Attrs)
    ensures var r := RemoveAll(w, MissingAmong(w.keys, w.vals));
            (w.Valid() ==> r.Valid()) &&
            (w.Valid() ==> forall name :: name in r.vals <==> name in w.vals && !w.vals[name].Missing?) &&
            forall name :: name in r.vals ==> name in w.vals && r.vals[name] == w.vals[name]
  {
  }

  function Cleaner(k: Kept): Attrs -> Attrs
  {
    a => CleanAttrs(a, k)
  }

  /** The graph after cleaning: the same nodes in the same order and the same
    * edges; every node's attributes cleaned. */
  function CleanGraph(g: Graph, k: Kept): (h: Graph)
    ensures h.edges == g.edges && h.nodes.keys == g.nodes.keys
    ensures forall n :: n in h.nodes.vals <==> n in g.nodes.vals
    ensures forall n :: n in g.nodes.vals ==> h.nodes.vals[n] == CleanAttrs(g.nodes.vals[n], k)
  {
    MapNodes(g, Cleaner(k))
  }

  /** After cleaning, no node attribute is missing, a list or a set, and every
    * string holds only kept characters and underscores. */
  lemma CleanGraphIsWritable(g: Graph, k: Kept, n: string, name: string)
    requires WellFormed(g) && n in g.nodes.vals && name in CleanGraph(g, k).nodes.vals[n].vals
    ensures var v := CleanGraph(g, k).nodes.vals[n].vals[name];
            !v.Missing? && !v.List? && !v.Set? && (v.Str? ==> OnlyKeptOrUnderscore(v.s, k))
  {
  }

  lemma CleanAttrsIdempotent(a: Attrs, k: Kept)
    requires a.Valid()
    ensures CleanAttrs(CleanAttrs(a, k), k) == CleanAttrs(a, k)
  {
    var c := CleanAttrs(a, k);
    forall x | x in c.vals
      ensures WordValue(c.vals[x], k) == c.vals[x]
    {
      WordValueIdempotent(a.vals[x], k);
    }
    WordedFixes(c, k);
    assert MissingAmong(c.keys, c.vals) == [];
    RemoveNone(c);
  }

  /** Attributes whose values are already rewritten are left as they are. */
  lemma WordedFixes(c: Attrs, k: Kept)
    requires forall x :: x in c.vals ==> WordValue(c.vals[x], k) == c.vals[x]
    ensures MapAttrs(c, Worded(k)) == c
  {
    var w := MapAttrs(c, Worded(k));
    assert w.vals == c.vals;
  }

  /** Cleaning a cleaned graph changes nothing. */
  lemma CleanGraphIdempotent(g: Graph, k: Kept)
    requires WellFormed(g)
    ensures CleanGraph(CleanGraph(g, k), k) == CleanGraph(g, k)
  {
    var h := CleanGraph(g, k);
    var hh := CleanGraph(h, k);
    forall n | n in h.nodes.vals
      ensures hh.nodes.vals[n] == h.nodes.vals[n]
    {
      CleanAttrsIdempotent(g.nodes.vals[n], k);
    }
    SameNodesSameGraph(hh, h);
  }

  /** Two graphs with the same node order, node attributes and edges are the
    * same graph. */
  lemma SameNodesSameGraph(g: Graph, h: Graph)
    requires g.edges == h.edges && g.nodes.keys == h.nodes.keys
    requires forall n :: n in g.nodes.vals <==> n in h.nodes.vals
    requires forall n :: n in h.nodes.vals ==> g.nodes.vals[n] == h.nodes.vals[n]
    ensures g == h
  {
    assert g.nodes.vals == h.nodes.vals;
  }

  /** One `del attrs[key]` on node `n`, stated against the node's original
    * neighbours in the map of all nodes. */
  /** One pass of the deletion loop: key `ks[j]` goes from node `n`. */
  method DeleteNext(graph: PropertyGraph, n: string, ghost before: map<string, Attrs>, ghost a0: Attrs, ks: seq<string>, j: nat)
    requires a0.Valid() && j < |ks|
    requires forall x :: x in ks ==> x in a0.vals
    requires forall i, i' :: 0 <= i < i' < |ks| ==> ks[i] != ks[i']
    requires graph.Valid() && graph.nodes.vals == before[n := RemoveAll(a0, ks[..j])]
    modifies graph`nodes
    ensures graph.Valid()
    ensures graph.nodes.keys == old(graph.nodes.keys)
    ensures graph.nodes.vals == before[n := RemoveAll(a0, ks[..j + 1])]
  {
    RemoveAllStep(a0, ks, j);
    ghost var cur := RemoveAll(a0, ks[..j]);
    graph.DelAttr(n, ks[j]);
    UpdateTwice(before, n, cur, cur.Remove(ks[j]));
  }

  /** `for key in del_keys: del attrs[key]` on node `n`. */
  method DeleteAttrs(graph: PropertyGraph, n: string, ks: seq<string>)
    requires graph.Valid() && n in graph.nodes.vals
    requires forall x :: x in ks ==> x in graph.nodes.vals[n].vals
    requires forall i, i' :: 0 <= i < i' < |ks| ==> ks[i] != ks[i']
    modifies graph`nodes
    ensures graph.Valid()
    ensures graph.edges == old(graph.edges) && graph.nodes.keys == old(graph.nodes.keys)
    ensures graph.nodes.vals == old(graph.nodes.vals)[n := RemoveAll(old(graph.nodes.vals[n]), ks)]
  {
    ghost var a0 := graph.nodes.vals[n];
    ghost var before := graph.nodes.vals;
    assert a0.Valid() && forall x :: x in ks ==> x in a0.vals;
    DeleteBounds(before, n, ks);
    var j := 0;
    while j < |ks|
      invariant 0 <= j <= |ks|
      invariant graph.Valid() && graph.nodes.keys == old(graph.nodes.keys)
      invariant graph.nodes.vals == before[n := RemoveAll(a0, ks[..j])]
    {
      DeleteNext(graph, n, before, a0, ks, j);
      j := j + 1;
    }
  }

  /** The deletion loop starts from the node's own attributes and ends
    * with all of `ks` deleted. */
  lemma DeleteBounds(before: map<string, Attrs>, n: string, ks: seq<string>)
    requires n in before
    ensures before[n := RemoveAll(before[n], ks[..0])] == before
    ensures RemoveAll(before[n], ks[..|ks|]) == RemoveAll(before[n], ks)
  {
    assert ks[..0] == [];
    RemoveNone(before[n]);
    assert ks[..|ks|] == ks;
  }

  lemma CleanAttrsSteps(a: Attrs, k: Kept)
    ensures var w := MapAttrs(a, Worded(k)); CleanAttrs(a, k) == RemoveAll(w, MissingAmong(w.keys, w.vals))
  {
  }

  lemma UpdateTwice(m: map<string, Attrs>, n: string, x: Attrs, y: Attrs)
    ensures m[n := x][n := y] == m[n := y]
  {
  }

  /** The cleaning of one node, as the loops do it: every attribute rewritten
    * in place, the names of the missing ones gathered, and then deleted. */
  method CleanNode(graph: PropertyGraph, n: string, k: Kept)
    requires graph.Valid() && n in graph.nodes.vals
    modifies graph
    ensures graph.Valid()
    ensures graph.edges == old(graph.edges) && graph.nodes.keys == old(graph.nodes.keys)
    ensures graph.nodes.vals == old(graph.nodes.vals)[n := CleanAttrs(old(graph.nodes.vals[n]), k)]
  {
    ghost var before := graph.nodes.vals;
    ghost var a0 := graph.nodes.vals[n];
    MapNode(graph, n, Worded(k));
    var w := graph.nodes.vals[n];
    assert w == MapAttrs(a0, Worded(k));
    assert w.Valid();
    var delKeys := MissingAmong(w.keys, w.vals);
    DeleteAttrs(graph, n, delKeys);
    CleanAttrsSteps(a0, k);
    UpdateTwice(before, n, w, CleanAttrs(a0, k));
  }

  /** `clean(graph)`: every node is cleaned in node order; the same graph
    * object is changed and handed back. */
  method Clean(graph: PropertyGraph, k: Kept)
    requires graph.Valid()
    modifies graph
    ensures graph.Valid()
    ensures graph.State() == CleanGraph(old(graph.State()), k)
  {
    ghost var g0 := graph.State();
    var keys := graph.nodes.keys;
    PartlyMappedGraphNone(g0, Cleaner(k));
    var i := 0;
    while i < |keys|
      invariant 0 <= i <= |keys|
      invariant graph.Valid()
      invariant graph.State() == PartlyMappedGraph(g0, i, Cleaner(k))
    {
      var n := keys[i];
      PartlyMappedGraphStep(g0, i, Cleaner(k));
      CleanNode(graph, n, k);
      i := i + 1;
    }
    PartlyMappedGraphAll(g0, Cleaner(k));
  }

  // ---- The class the generic importer writes, and the one it meant ---------

  /** As written, `[^w]` turns every character but `w` into `_`: a name made
    * of letters comes out as a row of underscores of the same length. */
  lemma LetterWErasesNames()
    ensures Underscored("Athens", LetterW) == "______"
  {
    var r := Underscored("Athens", LetterW);
    assert |r| == 6;
    assert forall i :: 0 <= i < 6 ==> !Keeps(LetterW, "Athens"[i]);
    assert forall i :: 0 <= i < 6 ==> r[i] == '_';
  }

  /** Any string without a `w` loses all of its characters under `[^w]`. */
  lemma LetterWErasesAll(s: string)
    requires 'w' !in s
    ensures forall i :: 0 <= i < |s| ==> Underscored(s, LetterW)[i] == '_'
  {
  }

  /** With `[^\w]`, as the converter writes it, a value made of word
    * characters comes out unchanged. */
  lemma WordCharsKeepWords(s: string)
    requires forall i :: 0 <= i < |s| ==> IsWordChar(s[i])
    ensures Underscored(s, WordChars) == s
    ensures Underscored("Athens", WordChars) == "Athens"
  {
    UnderscoredKeepsClean(s, WordChars);
    UnderscoredKeepsClean("Athens", WordChars);
  }
}
