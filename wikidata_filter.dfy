// The Wikidata dump filter (wikidata/wikidata_filter.py): every line of the
// dump is an entity; it is routed to the first id list it belongs to, either
// by its own id or by the ids of its `P31` (instance of) claims, and written
// to that list's output file.
module WikidataFilter {
  import opened Wrappers
  import opened Text
  import opened Values

  /** The two filtering modes. */
  datatype Choice = ByType | ById

  /** `choice` must be `"type"` or `"id"`. */
  function ParseChoice(choice: string): (r: Result<Choice, PyError>)
    ensures r.Success? <==> choice == "type" || choice == "id"
    ensures r == Success(ByType) <==> choice == "type"
  {
    if choice == "type" then Success(ByType)
    else if choice == "id" then Success(ById)
    else Failure(ValueError("Not a valid choice for filtering. Choose either \"type\" or \"id\"."))
  }

  /** The `files` argument: a list, or anything else, which is wrapped. */
  datatype FilesArg = FileList(paths: seq<string>) | OneFile(path: string)

  function Paths(files: FilesArg): (r: seq<string>)
    ensures files.OneFile? ==> r == [files.path]
    ensures files.FileList? ==> r == files.paths
  {
    match files
    case FileList(ps) => ps
    case OneFile(p) => [p]
  }

  /** `os.path.basename`: the part after the last `/`. */
  function Basename(path: string): (r: string)
    ensures '/' !in r
    ensures '/' !in path ==> r == path
  {
    var parts := Split(path, '/');
    if '/' !in path then
      SplitWithoutSeparator(path, '/');
      path
    else parts[|parts| - 1]
  }

  /** A row of the store: the ids of one list, and how many of them have
    * been found. */
  datatype StoreRow = StoreRow(name: string, ids: set<string>, found: nat)

  /** Row names are the store's index: each appears once. */
  predicate UniqueNames(store: seq<StoreRow>)
  {
    forall i, j :: 0 <= i < j < |store| ==> store[i].name != store[j].name
  }

  function Names(store: seq<StoreRow>): (r: seq<string>)
    ensures |r| == |store| && forall i :: 0 <= i < |store| ==> r[i] == store[i].name
  {
    seq(|store|, i requires 0 <= i < |store| => store[i].name)
  }

  /** The place of the first `x` in `xs`. */
  function IndexOf(xs: seq<string>, x: string): (i: nat)
    requires x in xs
    ensures i < |xs| && xs[i] == x && x !in xs[..i]
  {
    if xs[0] == x then 0
    else
      assert xs == [xs[0]] + xs[1..];
      var j := IndexOf(xs[1..], x);
      assert xs[..j + 1] == [xs[0]] + xs[1..][..j];
      j + 1
  }

  /** `self.store.loc[base, "ids"] = ids`: a known name keeps its place and
    * gets the new ids; a new name is added at the end. */
  function SetIds(store: seq<StoreRow>, name: string, ids: set<string>): seq<StoreRow>
  {
    if name in Names(store) then
      var i := IndexOf(Names(store), name);
      store[i := StoreRow(name, ids, store[i].found)]
    else store + [StoreRow(name, ids, 0)]
  }

  /** The row of `name` gets the ids, the others stay where they are, and
    * the names stay unique. */
  lemma SetIdsMeaning(store: seq<StoreRow>, name: string, ids: set<string>)
    requires UniqueNames(store)
    ensures var r := SetIds(store, name, ids);
            UniqueNames(r) && name in Names(r) &&
            (forall n :: n in Names(r) ==> n == name || n in Names(store)) &&
            (forall i :: 0 <= i < |r| && r[i].name == name ==> r[i].ids == ids) &&
            (forall i :: 0 <= i < |store| && store[i].name != name ==> i < |r| && r[i] == store[i])
  {
    var r := SetIds(store, name, ids);
    if name in Names(store) {
      var i := IndexOf(Names(store), name);
      assert Names(r)[i] == name;
      assert forall j :: 0 <= j < |r| && j != i ==> Names(r)[j] == Names(store)[j];
    } else {
      assert Names(r)[|store|] == name;
      assert forall j :: 0 <= j < |store| ==> Names(r)[j] == Names(store)[j];
    }
  }

  /** The store built from the files in turn; a file that cannot be read
    * stops the construction. */
  function StoreOf(paths: seq<string>, read: string -> Option<set<string>>): Result<seq<StoreRow>, PyError>
    decreases |paths|
  {
    if |paths| == 0 then Success([])
    else
      var init :- StoreOf(paths[..|paths| - 1], read);
      var p := paths[|paths| - 1];
      match read(p)
      case None => Failure(FileNotFoundError("This is not a valid filename."))
      case Some(ids) => Success(SetIds(init, Basename(p), ids))
  }

  /** The rows of the store have distinct names. */
  lemma {:induction false} StoreOfUnique(paths: seq<string>, read: string -> Option<set<string>>)
    requires StoreOf(paths, read).Success?
    ensures UniqueNames(StoreOf(paths, read).value)
    decreases |paths|
  {
    if |paths| > 0 {
      var init := paths[..|paths| - 1];
      StoreOfUnique(init, read);
      SetIdsMeaning(StoreOf(init, read).value, Basename(paths[|paths| - 1]), read(paths[|paths| - 1]).value);
    }
  }

  /** The construction succeeds exactly when every file can be read. */
  lemma {:induction false} StoreOfSucceeds(paths: seq<string>, read: string -> Option<set<string>>)
    ensures StoreOf(paths, read).Success? <==> forall i :: 0 <= i < |paths| ==> read(paths[i]).Some?
    decreases |paths|
  {
    if |paths| > 0 {
      var init := paths[..|paths| - 1];
      StoreOfSucceeds(init, read);
      assert forall i :: 0 <= i < |init| ==> init[i] == paths[i];
    }
  }

  /** Every file gives a row named by its base name. */
  lemma {:induction false} StoreOfNames(paths: seq<string>, read: string -> Option<set<string>>, k: nat)
    requires StoreOf(paths, read).Success? && k < |paths|
    ensures Basename(paths[k]) in Names(StoreOf(paths, read).value)
    decreases |paths|
  {
    var init := paths[..|paths| - 1];
    StoreOfUnique(init, read);
    var before := StoreOf(init, read).value;
    var last := paths[|paths| - 1];
    SetIdsMeaning(before, Basename(last), read(last).value);
    if k < |paths| - 1 {
      StoreOfNames(init, read, k);
      assert init[k] == paths[k];
      var i :| 0 <= i < |before| && Names(before)[i] == Basename(paths[k]);
      if before[i].name != Basename(last) {
        assert Names(StoreOf(paths, read).value)[i] == Basename(paths[k]);
      }
    }
  }

  // ---- Routing ---------------------------------------------------------------------------

  /** A `P31` claim: its main snak, with the target id when it has a
    * `datavalue`. */
  datatype Snak = Snak(datavalue: Option<string>)

  /** The entity a dump line holds (the JSON decoding is not modelled). */
  datatype Item = Item(id: string, claims: map<string, seq<Snak>>)

  /** The target ids of the claims that have a value. */
  function TypeIds(snaks: seq<Snak>): (r: set<string>)
    ensures forall t :: t in r <==> exists i :: 0 <= i < |snaks| && snaks[i].datavalue == Some(t)
  {
    set i | 0 <= i < |snaks| && snaks[i].datavalue.Some? :: snaks[i].datavalue.value
  }

  /** Whether a row takes the item: in type mode its ids meet the item's
    * types, in id mode they hold the item's id. */
  predicate Takes(choice: Choice, row: StoreRow, item: Item)
  {
    match choice
    case ByType => "P31" in item.claims && TypeIds(item.claims["P31"]) * row.ids != {}
    case ById => item.id in row.ids
  }

  /** `filter_line`: the name of the first row that takes the item, or
    * `False` (`None`). */
  function FilterLine(store: seq<StoreRow>, choice: Choice, item: Item): (r: Option<string>)
    ensures r.None? <==> forall i :: 0 <= i < |store| ==> !Takes(choice, store[i], item)
    ensures r.Some? ==> exists i :: 0 <= i < |store| && store[i].name == r.value && Takes(choice, store[i], item) &&
                                    forall j :: 0 <= j < i ==> !Takes(choice, store[j], item)
  {
    if |store| == 0 then None
    else if Takes(choice, store[0], item) then Some(store[0].name)
    else
      var r := FilterLine(store[1..], choice, item);
      assert forall i :: 1 <= i < |store| ==> store[i] == store[1..][i - 1];
      if r.Some? then
        var i :| 0 <= i < |store[1..]| && store[1..][i].name == r.value && Takes(choice, store[1..][i], item) &&
                 forall j :: 0 <= j < i ==> !Takes(choice, store[1..][j], item);
        assert store[i + 1] == store[1..][i];
        r
      else r
  }

  /** In type mode an item without `P31` claims is never routed. */
  lemma UntypedNotRouted(store: seq<StoreRow>, item: Item)
    requires "P31" !in item.claims
    ensures FilterLine(store, ByType, item) == None
  {
  }

  // ---- Counting and finishing ----------------------------------------------------------

  /** How many lines were routed to `name`. */
  function Count(routes: seq<Option<string>>, name: string): nat
  {
    if |routes| == 0 then 0
    else Count(routes[..|routes| - 1], name) + (if routes[|routes| - 1] == Some(name) then 1 else 0)
  }

  /** The lines routed to `name`, in order, each with its line break. */
  function Routed(lines: seq<string>, routes: seq<Option<string>>, name: string): (r: seq<string>)
    requires |lines| == |routes|
  {
    if |lines| == 0 then []
    else
      var k := |lines| - 1;
      Routed(lines[..k], routes[..k], name) + (if routes[k] == Some(name) then [lines[k] + "\n"] else [])
  }

  /** Each routed line is written once: as many lines go to a file as were
    * counted for it. */
  lemma {:induction false} RoutedCount(lines: seq<string>, routes: seq<Option<string>>, name: string)
    requires |lines| == |routes|
    ensures |Routed(lines, routes, name)| == Count(routes, name)
    decreases |lines|
  {
    if |lines| > 0 {
      var k := |lines| - 1;
      RoutedCount(lines[..k], routes[..k], name);
    }
  }

  /** `self.store.Found.add(counts, fill_value=0)`. */
  function AddCounts(store: seq<StoreRow>, routes: seq<Option<string>>): (r: seq<StoreRow>)
    ensures |r| == |store|
    ensures forall i :: 0 <= i < |store| ==>
              r[i].name == store[i].name && r[i].ids == store[i].ids && r[i].found == store[i].found + Count(routes, store[i].name)
  {
    seq(|store|, i requires 0 <= i < |store| => store[i].(found := store[i].found + Count(routes, store[i].name)))
  }

  /** A row is finished when every one of its ids was found; in type mode no
    * row ever is. */
  predicate Finished(choice: Choice, row: StoreRow)
  {
    choice == ById && row.found == |row.ids|
  }

  /** The rows `breaker` keeps, in order. */
  function Unfinished(choice: Choice, store: seq<StoreRow>): (r: seq<StoreRow>)
    ensures |r| <= |store|
    ensures forall x :: x in r <==> x in store && !Finished(choice, x)
  {
    if |store| == 0 then []
    else
      var k := |store| - 1;
      assert forall x :: x in store <==> x in store[..k] || x == store[k];
      Unfinished(choice, store[..k]) + (if Finished(choice, store[k]) then [] else [store[k]])
  }

  /** In type mode `breaker` keeps every row. */
  lemma {:induction false} TypeModeKeepsAll(store: seq<StoreRow>)
    ensures Unfinished(ByType, store) == store
    decreases |store|
  {
    if |store| > 0 {
      TypeModeKeepsAll(store[..|store| - 1]);
      assert store[..|store| - 1] + [store[|store| - 1]] == store;
    }
  }

  /** The last line of the dump is the closing `]` of the JSON array. */
  function DropClosing(chunk: seq<string>): (r: seq<string>)
    ensures |chunk| > 0 && chunk[|chunk| - 1] == "]" ==> r == chunk[..|chunk| - 1]
    ensures !(|chunk| > 0 && chunk[|chunk| - 1] == "]") ==> r == chunk
  {
    if |chunk| > 0 && chunk[|chunk| - 1] == "]" then chunk[..|chunk| - 1] else chunk
  }

  /** `x["Value"][:-1]`: the line without its trailing comma. */
  function WithoutComma(line: string): string
  {
    if |line| == 0 then "" else line[..|line| - 1]
  }

  /** The route of every line of a chunk. */
  function Routes(store: seq<StoreRow>, choice: Choice, lines: seq<string>, parse: string -> Item): (r: seq<Option<string>>)
    ensures |r| == |lines|
    ensures forall i :: 0 <= i < |lines| ==> r[i] == FilterLine(store, choice, parse(WithoutComma(lines[i])))
  {
    seq(|lines|, i requires 0 <= i < |lines| => FilterLine(store, choice, parse(WithoutComma(lines[i]))))
  }

  class Filter {
    const choice: Choice
    /** The store: one row per id list, in the order the files were given. */
    var store: seq<StoreRow>
    /** What has been written to each output file. */
    var written: map<string, seq<string>>

    ghost predicate Valid()
      reads this
    {
      UniqueNames(store) && forall i :: 0 <= i < |store| ==> store[i].name in written
    }

    constructor (choice: Choice, store: seq<StoreRow>)
      requires UniqueNames(store)
      ensures Valid()
      ensures this.choice == choice
      ensures this.store == seq(|store|, i requires 0 <= i < |store| => store[i].(found := 0))
      ensures written == map i | 0 <= i < |store| :: store[i].name := []
    {
      this.choice := choice;
      this.store := seq(|store|, i requires 0 <= i < |store| => store[i].(found := 0));
      written := map i | 0 <= i < |store| :: store[i].name := [];
    }

    /** `breaker(lines)`: finished rows leave the store; the number of rows
      * left is returned. */
    method Breaker() returns (remaining: nat)
      requires Valid()
      modifies this
      ensures Valid()
      ensures store == Unfinished(choice, old(store))
      ensures written == old(written)
      ensures remaining == |store|
    {
      var kept: seq<StoreRow> := [];
      var i := 0;
      while i < |store|
        invariant 0 <= i <= |store|
        invariant kept == Unfinished(choice, store[..i])
      {
        assert store[..i + 1][..i] == store[..i];
        if !(choice == ById && store[i].found == |store[i].ids|) {
          kept := kept + [store[i]];
        }
        i := i + 1;
      }
      assert store[..i] == store;
      KeptRowsValid(choice, store, written);
      store := kept;
      remaining := |store|;
    }

    /** `filter(chunksize)`: only the first chunk is read. Its closing `]`
      * is dropped, every line is routed, in id mode the counts are added,
      * the routed lines are written, and in id mode `breaker` runs. */
    method Run(chunks: seq<seq<string>>, parse: string -> Item)
      requires Valid()
      modifies this
      ensures Valid()
      ensures |chunks| == 0 ==> store == old(store) && written == old(written)
      ensures |chunks| > 0 ==>
                var lines := DropClosing(chunks[0]);
                var routes := Routes(old(store), choice, lines, parse);
                written.Keys == old(written).Keys &&
                (forall n :: n in written ==> written[n] == old(written)[n] + Routed(lines, routes, n)) &&
                store == (if choice == ById then Unfinished(choice, AddCounts(old(store), routes)) else old(store))
    {
      if |chunks| == 0 {
        return;
      }
      var lines := DropClosing(chunks[0]);
      var routes := Routes(store, choice, lines, parse);
      if choice == ById {
        store := AddCounts(store, routes);
        assert forall i :: 0 <= i < |store| ==> store[i].name == old(store)[i].name;
      }
      WriteLines(lines, routes);
      if choice == ById {
        var remaining := Breaker();
      }
    }

    /** The writes of the routed lines, one at a time in line order. */
    method WriteLines(lines: seq<string>, routes: seq<Option<string>>)
      requires Valid() && |lines| == |routes|
      requires forall i :: 0 <= i < |routes| && routes[i].Some? ==> routes[i].value in written
      modifies this
      ensures Valid()
      ensures store == old(store)
      ensures written.Keys == old(written).Keys
      ensures forall n :: n in written ==> written[n] == old(written)[n] + Routed(lines, routes, n)
    {
      var i := 0;
      while i < |lines|
        invariant 0 <= i <= |lines|
        invariant Valid() && store == old(store)
        invariant written.Keys == old(written).Keys
        invariant forall n :: n in written ==> written[n] == old(written)[n] + Routed(lines[..i], routes[..i], n)
      {
        RoutedNext(lines, routes, i);
        if routes[i].Some? {
          var n := routes[i].value;
          written := written[n := written[n] + [lines[i] + "\n"]];
        }
        i := i + 1;
      }
      assert lines[..i] == lines && routes[..i] == routes;
    }
  }

  lemma RoutedNext(lines: seq<string>, routes: seq<Option<string>>, i: nat)
    requires |lines| == |routes| && i < |lines|
    ensures forall n :: Routed(lines[..i + 1], routes[..i + 1], n) ==
                        Routed(lines[..i], routes[..i], n) + (if routes[i] == Some(n) then [lines[i] + "\n"] else [])
  {
    assert lines[..i + 1][..i] == lines[..i];
    assert routes[..i + 1][..i] == routes[..i];
  }

  lemma {:induction false} KeptRowsValid(choice: Choice, store: seq<StoreRow>, written: map<string, seq<string>>)
    requires UniqueNames(store) && forall i :: 0 <= i < |store| ==> store[i].name in written
    ensures UniqueNames(Unfinished(choice, store))
    ensures forall i :: 0 <= i < |Unfinished(choice, store)| ==> Unfinished(choice, store)[i].name in written
    decreases |store|
  {
    if |store| > 0 {
      var k := |store| - 1;
      var init := Unfinished(choice, store[..k]);
      KeptRowsValid(choice, store[..k], written);
      forall i | 0 <= i < |init|
        ensures init[i].name != store[k].name
      {
        assert init[i] in store[..k];
      }
    }
  }

  /** `WikidataFilter(choice, files)`: the choice is checked first, then
    * each file is read in turn and its output file opened. */
  method NewFilter(choice: string, files: FilesArg, read: string -> Option<set<string>>) returns (r: Result<Filter, PyError>)
    ensures ParseChoice(choice).Failure? ==> r == Failure(ParseChoice(choice).error)
    ensures ParseChoice(choice).Success? && StoreOf(Paths(files), read).Failure? ==> r == Failure(StoreOf(Paths(files), read).error)
    ensures r.Success? ==> ParseChoice(choice) == Success(r.value.choice) && fresh(r.value) && r.value.Valid()
    ensures r.Success? ==> StoreOf(Paths(files), read).Success? &&
                           r.value.store == seq(|StoreOf(Paths(files), read).value|, i requires 0 <= i < |StoreOf(Paths(files), read).value| =>
                                                  StoreOf(Paths(files), read).value[i].(found := 0))
  {
    var c := ParseChoice(choice);
    if c.Failure? {
      return Failure(c.error);
    }
    var paths := Paths(files);
    var rows: seq<StoreRow> := [];
    var i := 0;
    assert paths[..0] == [];
    while i < |paths|
      invariant 0 <= i <= |paths|
      invariant StoreOf(paths[..i], read) == Success(rows)
    {
      assert paths[..i + 1][..i] == paths[..i];
      var ids := read(paths[i]);
      if ids.None? {
        StoreOfStop(paths, read, i + 1);
        return Failure(FileNotFoundError("This is not a valid filename."));
      }
      rows := SetIds(rows, Basename(paths[i]), ids.value);
      i := i + 1;
    }
    assert paths[..i] == paths;
    StoreOfUnique(paths, read);
    var f := new Filter(c.value, rows);
    return Success(f);
  }

  /** Once a file could not be read, the later files do not matter. */
  lemma {:induction false} StoreOfStop(paths: seq<string>, read: string -> Option<set<string>>, m: nat)
    requires m <= |paths| && StoreOf(paths[..m], read).Failure?
    ensures StoreOf(paths, read) == StoreOf(paths[..m], read)
    decreases |paths| - m
  {
    if m < |paths| {
      var k := |paths| - 1;
      assert paths[..k][..m] == paths[..m];
      StoreOfStop(paths[..k], read, m);
    } else {
      assert paths[..m] == paths;
    }
  }
}
