// OSMWrangle's `Classification`: the hierarchy of categories read from a YML
// file (one category per line, two spaces of indentation per level, the name
// before a `#` and the identifier after it) or from a CSV file (each record
// a path of (identifier, name) pairs from the top tier down). Categories are
// kept by name, their UUIDs by identifier. Reading the file is left to the
// caller, who passes its lines, or its records after the header row; a
// fatal error (`System.exit(1)` in the source) is a `Fatal` value.
module OsmClassification {
  import opened Wrappers
  import opened Text
  import opened OsmCategory

  /** The deepest level a YML line may have. */
  const MaxLevels: nat := 10

  datatype Fatal =
    | TooDeep(line: nat)
    | NoSeparator(line: nat)
    | NoTopIdentifier(line: nat)
    | InvalidIndentation(line: nat)
    | NoKeyNorCategory(line: nat)
    | NoIdentifier(line: nat)
    | EmptyClassification
    | ReadingFailed
    | NotYmlOrCsv

  /** The number of leading spaces. */
  function LeadingSpaces(line: string): (n: nat)
    ensures n <= |line|
    ensures forall i :: 0 <= i < n ==> line[i] == ' '
    ensures n < |line| ==> line[n] != ' '
  {
    if |line| > 0 && line[0] == ' ' then 1 + LeadingSpaces(line[1..]) else 0
  }

  /** Counts the indentation characters until the first other character. */
  method CountIndent(line: string) returns (n: nat)
    ensures n == LeadingSpaces(line)
  {
    n := 0;
    while n < |line| && line[n] == ' '
      invariant n <= |line|
      invariant LeadingSpaces(line) == n + LeadingSpaces(line[n..])
    {
      assert line[n..][1..] == line[n + 1..];
      n := n + 1;
    }
  }

  /** `s.split(c, 2)` for a one-character pattern: the text before the first
    * `c` and the text after it, or nothing when `c` does not occur. */
  function SplitFirst(s: string, c: char): (r: Option<(string, string)>)
    ensures r.None? <==> c !in s
    ensures r.Some? ==> s == r.value.0 + [c] + r.value.1 && c !in r.value.0
  {
    if |s| == 0 then None
    else if s[0] == c then Some(("", s[1..]))
    else
      match SplitFirst(s[1..], c)
      case None => None
      case Some(p) => Some(([s[0]] + p.0, p.1))
  }

  /** What one line of a YML file says. */
  datatype YmlLine = Blank | Line(level: nat, id: string, name: string)

  /** A blank line says nothing; otherwise the level is half the number of
    * leading spaces (at most `MaxLevels`), the name is the trimmed text
    * before the first `#` and the identifier the trimmed rest with every
    * further `#` turned into a space. */
  function ReadYmlLine(line: string, number: nat): (r: Result<YmlLine, Fatal>)
    ensures r.Success? && r.value.Line? ==> r.value.level <= MaxLevels
  {
    var t := Trim(line);
    if |t| == 0 then Success(Blank)
    else
      var level := LeadingSpaces(line) / 2;
      if level > MaxLevels then Failure(TooDeep(number))
      else
        match SplitFirst(t, '#')
        case None => Failure(NoSeparator(number))
        case Some(parts) => Success(Line(level, Trim(ReplaceChar(parts.1, '#', " ")), Trim(parts.0)))
  }

  /** Neither the name nor the identifier of a YML line contains `#`; a line
    * fails exactly when it is too deep or has no `#`. */
  lemma ReadYmlLineParts(line: string, number: nat)
    ensures var r := ReadYmlLine(line, number);
      r.Success? && r.value.Line? ==> '#' !in r.value.id && '#' !in r.value.name
    ensures var r := ReadYmlLine(line, number);
      r.Success? && r.value.Line? ==> r.value.level == LeadingSpaces(line) / 2
    ensures var r := ReadYmlLine(line, number);
      r.Failure? <==> Trim(line) != "" && (LeadingSpaces(line) / 2 > MaxLevels || '#' !in Trim(line))
  {
    var t := Trim(line);
    if |t| > 0 && LeadingSpaces(line) / 2 <= MaxLevels {
      var parts := SplitFirst(t, '#');
      if parts.Some? {
        TrimWithout(parts.value.0, '#');
        TrimWithout(ReplaceChar(parts.value.1, '#', " "), '#');
      }
    }
  }

  /** The parser's state: categories by name, UUIDs by identifier, and the
    * identifier of the latest category seen at each level (`categoryLevels`). */
  datatype YmlState = YmlState(categories: map<string, Fields>, uuids: map<string, string>, levels: seq<Option<string>>)

  function NoLevels(): (levels: seq<Option<string>>)
    ensures |levels| == MaxLevels + 1
    ensures forall k :: 0 <= k < |levels| ==> levels[k].None?
  {
    seq(MaxLevels + 1, _ => None)
  }

  /** The effect of one line. A top-tier line must have an identifier, has
    * no parent and resets the levels to itself alone; a nested line takes
    * the latest category one level up as its parent and needs an
    * identifier. Either way the category is stored under its name and its
    * UUID under its identifier, replacing earlier ones. */
  function YmlApply(st: YmlState, entry: YmlLine, number: nat, uuidOf: string -> string): (r: Result<YmlState, Fatal>)
    requires |st.levels| == MaxLevels + 1
    requires entry.Line? ==> entry.level <= MaxLevels
    ensures r.Success? ==> |r.value.levels| == MaxLevels + 1
  {
    match entry
    case Blank => Success(st)
    case Line(level, id, name) =>
      var uuid := uuidOf(id + name);
      if level == 0 then
        if id == "" then Failure(NoTopIdentifier(number))
        else
          Success(YmlState(st.categories[name := Normalised(uuid, id, name, "")], st.uuids[id := uuid],
                           NoLevels()[0 := Some(id)]))
      else
        match st.levels[level - 1]
        case None => Failure(InvalidIndentation(number))
        case Some(parent) =>
          if id == "" && name == "" then Failure(NoKeyNorCategory(number))
          else if id == "" then Failure(NoIdentifier(number))
          else
            Success(YmlState(st.categories[name := Normalised(uuid, id, name, parent)], st.uuids[id := uuid],
                             st.levels[level := Some(id)]))
  }

  function YmlStep(st: YmlState, line: string, number: nat, uuidOf: string -> string): (r: Result<YmlState, Fatal>)
    requires |st.levels| == MaxLevels + 1
    ensures r.Success? ==> |r.value.levels| == MaxLevels + 1
  {
    match ReadYmlLine(line, number)
    case Failure(e) => Failure(e)
    case Success(entry) => YmlApply(st, entry, number, uuidOf)
  }

  /** The lines from the `i`-th on (numbered from 1), applied in order; the
    * first failing line ends the parse. */
  function YmlFrom(st: YmlState, lines: seq<string>, i: nat, uuidOf: string -> string): (r: Result<YmlState, Fatal>)
    requires |st.levels| == MaxLevels + 1
    ensures r.Success? ==> |r.value.levels| == MaxLevels + 1
    decreases |lines| - i
  {
    if i >= |lines| then Success(st)
    else
      match YmlStep(st, lines[i], i + 1, uuidOf)
      case Failure(e) => Failure(e)
      case Success(next) => YmlFrom(next, lines, i + 1, uuidOf)
  }

  /** `parseYMLFile`: a file without lines or without categories is fatal. */
  function YmlParse(categories: map<string, Fields>, uuids: map<string, string>, lines: seq<string>, uuidOf: string -> string): (r: Result<YmlState, Fatal>)
    ensures r.Success? ==> r.value.categories != map[] && |lines| > 0
  {
    match YmlFrom(YmlState(categories, uuids, NoLevels()), lines, 0, uuidOf)
    case Failure(e) => Failure(e)
    case Success(st) => if |lines| == 0 || st.categories == map[] then Failure(EmptyClassification) else Success(st)
  }

  /** A nested line is accepted exactly when some category is recorded one
    * level up and the line has an identifier; that category's identifier
    * becomes its parent, and only its own level changes, so deeper levels
    * keep stale entries. */
  lemma YmlNested(st: YmlState, level: nat, id: string, name: string, number: nat, uuidOf: string -> string)
    requires LevelsNamed(st.levels) && 0 < level <= MaxLevels
    ensures var r := YmlApply(st, Line(level, id, name), number, uuidOf);
      r.Success? <==> st.levels[level - 1].Some? && id != ""
    ensures var r := YmlApply(st, Line(level, id, name), number, uuidOf);
      r.Success? ==>
        r.value.categories[name].parent == st.levels[level - 1] &&
        r.value.categories[name].id == Some(id) &&
        r.value.uuids[id] == uuidOf(id + name) &&
        r.value.levels == st.levels[level := Some(id)]
  {
  }

  /** A top-tier line has no parent and clears every deeper level. */
  lemma YmlTopTier(st: YmlState, id: string, name: string, number: nat, uuidOf: string -> string)
    requires |st.levels| == MaxLevels + 1
    ensures var r := YmlApply(st, Line(0, id, name), number, uuidOf);
      r.Success? <==> id != ""
    ensures var r := YmlApply(st, Line(0, id, name), number, uuidOf);
      r.Success? ==>
        r.value.categories[name].parent.None? &&
        r.value.levels[0] == Some(id) &&
        forall k :: 1 <= k <= MaxLevels ==> r.value.levels[k].None?
  {
  }

  /** A category two levels below one that was indented under an earlier
    * sibling is accepted and attached to that sibling's child. With
    * top-tier "1", "2" at level 1, "3" at level 2 and then "4" at level 1,
    * a line at level 3 still finds "3" at level 2 and becomes its child. */
  lemma {:induction false} YmlStaleParent(uuidOf: string -> string)
    ensures var s1 := YmlApply(YmlState(map[], map[], NoLevels()), Line(0, "1", "A"), 1, uuidOf).value;
      var s2 := YmlApply(s1, Line(1, "2", "B"), 2, uuidOf).value;
      var s3 := YmlApply(s2, Line(2, "3", "C"), 3, uuidOf).value;
      var s4 := YmlApply(s3, Line(1, "4", "D"), 4, uuidOf).value;
      var r := YmlApply(s4, Line(3, "5", "E"), 5, uuidOf);
      r.Success? && r.value.categories["E"].parent == Some("3")
  {
    var s1 := YmlApply(YmlState(map[], map[], NoLevels()), Line(0, "1", "A"), 1, uuidOf).value;
    assert s1.levels == NoLevels()[0 := Some("1")];
    var s2 := YmlApply(s1, Line(1, "2", "B"), 2, uuidOf).value;
    assert s2.levels == s1.levels[1 := Some("2")];
    var s3 := YmlApply(s2, Line(2, "3", "C"), 3, uuidOf).value;
    assert s3.levels == s2.levels[2 := Some("3")];
    var s4 := YmlApply(s3, Line(1, "4", "D"), 4, uuidOf).value;
    assert s4.levels == s3.levels[1 := Some("4")];
    assert s4.levels[2] == Some("3");
  }

  /** Every recorded level and every category has a non-empty identifier,
    * and the UUID of every category's identifier is known. */
  predicate YmlValid(st: YmlState)
  {
    LevelsNamed(st.levels) &&
    (forall n :: n in st.categories ==> st.categories[n].id.Some? && st.categories[n].id.value in st.uuids)
  }

  /** Every recorded level has a non-empty identifier. */
  predicate LevelsNamed(levels: seq<Option<string>>)
  {
    |levels| == MaxLevels + 1 &&
    forall k :: 0 <= k < |levels| && levels[k].Some? ==> levels[k].value != ""
  }

  lemma YmlApplyValid(st: YmlState, entry: YmlLine, number: nat, uuidOf: string -> string)
    requires YmlValid(st) && (entry.Line? ==> entry.level <= MaxLevels)
    ensures YmlApply(st, entry, number, uuidOf).Success? ==> YmlValid(YmlApply(st, entry, number, uuidOf).value)
  {
  }

  /** Parsing keeps the identifiers valid. */
  lemma {:induction false} YmlFromValid(st: YmlState, lines: seq<string>, i: nat, uuidOf: string -> string)
    requires YmlValid(st)
    ensures YmlFrom(st, lines, i, uuidOf).Success? ==> YmlValid(YmlFrom(st, lines, i, uuidOf).value)
    decreases |lines| - i
  {
    if i < |lines| {
      var entry := ReadYmlLine(lines[i], i + 1);
      if entry.Success? {
        YmlApplyValid(st, entry.value, i + 1, uuidOf);
        var next := YmlStep(st, lines[i], i + 1, uuidOf);
        if next.Success? {
          YmlFromValid(next.value, lines, i + 1, uuidOf);
        }
      }
    }
  }

  /** The CSV parser's state; `parent` is the identifier of the latest
    * accepted pair of the current record. */
  datatype CsvState = CsvState(categories: map<string, Fields>, uuids: map<string, string>)

  /** One (identifier, name) pair. A pair with a blank name or identifier is
    * skipped; otherwise its identifier is the next pair's parent, and the
    * category is stored unless one with that name and identifier exists. */
  function CsvPair(st: CsvState, parent: string, rawId: string, rawName: string, uuidOf: string -> string): (r: (CsvState, string))
  {
    CsvAccept(st, parent, Trim(rawId), Trim(rawName), uuidOf)
  }

  /** `CsvPair` on the trimmed identifier and name. */
  function CsvAccept(st: CsvState, parent: string, id: string, name: string, uuidOf: string -> string): (r: (CsvState, string))
  {
    if |name| == 0 || id == "" then (st, parent)
    else if name in st.categories && st.categories[name].id == Some(id) then (st, id)
    else
      var uuid := uuidOf(id + name);
      (CsvState(st.categories[name := Normalised(uuid, id, name, parent)], st.uuids[id := uuid]), id)
  }

  /** The pairs of a record from position `i` on. A record of odd length
    * fails on its last, incomplete pair. */
  function CsvPairs(st: CsvState, parent: string, rec: seq<string>, i: nat, uuidOf: string -> string): (r: Result<CsvState, Fatal>)
    ensures r.Failure? <==> (|rec| - i) % 2 == 1 && i < |rec|
    ensures r.Failure? ==> r.error == ReadingFailed
    decreases |rec| - i
  {
    if i >= |rec| then Success(st)
    else if i + 1 >= |rec| then Failure(ReadingFailed)
    else
      var next := CsvPair(st, parent, rec[i], rec[i + 1], uuidOf);
      CsvPairs(next.0, next.1, rec, i + 2, uuidOf)
  }

  /** The records from the `j`-th on; every record starts without a parent. */
  function CsvFrom(st: CsvState, records: seq<seq<string>>, j: nat, uuidOf: string -> string): (r: Result<CsvState, Fatal>)
    decreases |records| - j, 1
  {
    if j >= |records| then Success(st)
    else CsvThen(CsvPairs(st, "", records[j], 0, uuidOf), records, j + 1, uuidOf)
  }

  function CsvThen(r: Result<CsvState, Fatal>, records: seq<seq<string>>, j: nat, uuidOf: string -> string): Result<CsvState, Fatal>
    requires j <= |records|
    decreases |records| - j + 1, 0
  {
    match r
    case Failure(e) => Failure(e)
    case Success(st) => CsvFrom(st, records, j, uuidOf)
  }

  /** `parseCSVFile`: a file without categories is fatal. */
  function CsvParse(categories: map<string, Fields>, uuids: map<string, string>, records: seq<seq<string>>, uuidOf: string -> string): (r: Result<CsvState, Fatal>)
    ensures r.Success? ==> r.value.categories != map[]
  {
    match CsvFrom(CsvState(categories, uuids), records, 0, uuidOf)
    case Failure(e) => Failure(e)
    case Success(st) => if st.categories == map[] then Failure(EmptyClassification) else Success(st)
  }

  /** A pair with a blank name or identifier changes nothing; an accepted
    * pair becomes the parent of the next one, keeps an existing category of
    * the same name and identifier, and otherwise stores a category whose
    * parent is the previous accepted pair of the record. */
  lemma CsvPairEffect(st: CsvState, parent: string, rawId: string, rawName: string, uuidOf: string -> string)
    ensures var r := CsvPair(st, parent, rawId, rawName, uuidOf);
      Trim(rawName) == "" || Trim(rawId) == "" ==> r == (st, parent)
    ensures var r := CsvPair(st, parent, rawId, rawName, uuidOf);
      var id, name := Trim(rawId), Trim(rawName);
      name != "" && id != "" ==>
        r.1 == id &&
        name in r.0.categories && r.0.categories[name].id == Some(id) &&
        (name in st.categories && st.categories[name].id == Some(id) ==> r.0 == st) &&
        (!(name in st.categories && st.categories[name].id == Some(id)) ==>
           r.0.categories[name] == Normalised(uuidOf(id + name), id, name, parent) &&
           r.0.uuids[id] == uuidOf(id + name))
  {
    CsvAcceptEffect(st, parent, Trim(rawId), Trim(rawName), uuidOf);
  }

  lemma CsvAcceptEffect(st: CsvState, parent: string, id: string, name: string, uuidOf: string -> string)
    ensures var r := CsvAccept(st, parent, id, name, uuidOf);
      name == "" || id == "" ==> r == (st, parent)
    ensures var r := CsvAccept(st, parent, id, name, uuidOf);
      name != "" && id != "" ==>
        r.1 == id &&
        name in r.0.categories && r.0.categories[name].id == Some(id) &&
        (name in st.categories && st.categories[name].id == Some(id) ==> r.0 == st) &&
        (!(name in st.categories && st.categories[name].id == Some(id)) ==>
           r.0.categories[name] == Normalised(uuidOf(id + name), id, name, parent) &&
           r.0.uuids[id] == uuidOf(id + name))
  {
  }

  /** Every category has a non-empty identifier whose UUID is known. */
  predicate CsvValid(st: CsvState)
  {
    forall n :: n in st.categories ==> st.categories[n].id.Some? && st.categories[n].id.value in st.uuids
  }

  lemma CsvAcceptValid(st: CsvState, parent: string, id: string, name: string, uuidOf: string -> string)
    requires CsvValid(st)
    ensures CsvValid(CsvAccept(st, parent, id, name, uuidOf).0)
  {
  }

  lemma {:induction false} CsvPairsValid(st: CsvState, parent: string, rec: seq<string>, i: nat, uuidOf: string -> string)
    requires CsvValid(st)
    ensures CsvPairs(st, parent, rec, i, uuidOf).Success? ==> CsvValid(CsvPairs(st, parent, rec, i, uuidOf).value)
    decreases |rec| - i
  {
    if i + 1 < |rec| {
      var next := CsvPair(st, parent, rec[i], rec[i + 1], uuidOf);
      CsvAcceptValid(st, parent, Trim(rec[i]), Trim(rec[i + 1]), uuidOf);
      CsvPairsValid(next.0, next.1, rec, i + 2, uuidOf);
    }
  }

  /** Parsing keeps the identifiers valid. */
  lemma {:induction false} CsvFromValid(st: CsvState, records: seq<seq<string>>, j: nat, uuidOf: string -> string)
    requires CsvValid(st)
    ensures CsvFrom(st, records, j, uuidOf).Success? ==> CsvValid(CsvFrom(st, records, j, uuidOf).value)
    decreases |records| - j
  {
    if j < |records| {
      var r := CsvPairs(st, "", records[j], 0, uuidOf);
      CsvPairsValid(st, "", records[j], 0, uuidOf);
      if r.Success? {
        CsvFromValid(r.value, records, j + 1, uuidOf);
      }
    }
  }

  /** Reads one line of a YML file, counting its indentation first. */
  method ReadLine(line: string, number: nat) returns (r: Result<YmlLine, Fatal>)
    ensures r == ReadYmlLine(line, number)
  {
    var t := Trim(line);
    if |t| == 0 {
      return Success(Blank);
    }
    var indent := CountIndent(line);
    var level := indent / 2;
    if level > MaxLevels {
      return Failure(TooDeep(number));
    }
    var parts := SplitFirst(t, '#');
    if parts.None? {
      return Failure(NoSeparator(number));
    }
    var id := Trim(ReplaceChar(parts.value.1, '#', " "));
    var name := Trim(parts.value.0);
    return Success(Line(level, id, name));
  }

  /** The identifier of the category recorded at a level, if any. */
  function LevelId(c: Category?): Option<string>
  {
    if c == null then None else c.id
  }

  /** `new Category[MAX_LEVELS + 1]`: no category at any level. */
  method NewLevels() returns (levels: array<Category?>)
    ensures fresh(levels) && LevelsMatch(levels, NoLevels())
  {
    levels := new Category?[MaxLevels + 1](_ => null);
  }

  /** The levels after a top-tier line: the line's category alone, at level 0. */
  method TopLevels(category: Category) returns (levels: array<Category?>)
    requires category.id.Some?
    ensures fresh(levels) && LevelsMatch(levels, NoLevels()[0 := category.id])
  {
    levels := NewLevels();
    levels[0] := category;
  }

  /** The array of categories by level records the identifiers `ids`, and
    * every category in it has an identifier. */
  predicate LevelsMatch(levels: array<Category?>, ids: seq<Option<string>>)
    reads levels
  {
    levels.Length == |ids| &&
    forall k :: 0 <= k < levels.Length ==> LevelId(levels[k]) == ids[k] && (levels[k] != null ==> levels[k].id.Some?)
  }

  class Classification {
    var categories: map<string, Category>
    var categoryUUIDs: map<string, string>

    /** The fields of the categories, by name. */
    function Entries(): (entries: map<string, Fields>)
      reads this, categories.Values
      ensures entries.Keys == categories.Keys
    {
      map n | n in categories :: categories[n].Value()
    }

    constructor()
      ensures categories == map[] && categoryUUIDs == map[]
    {
      categories := map[];
      categoryUUIDs := map[];
    }

    /** `search`: the category with this name, or null. */
    function Search(categoryName: string): (r: Option<Category>)
      reads this
      ensures r.Some? <==> categoryName in categories
      ensures r.Some? ==> r.value == categories[categoryName]
    {
      if categoryName in categories then Some(categories[categoryName]) else None
    }

    /** `getUUID`: the UUID of the category with this name, or null. */
    function GetUUID(categoryName: string): (r: Option<string>)
      reads this, categories.Values
      ensures categoryName !in Entries() ==> r.None?
      ensures categoryName in Entries() ==> r == Entries()[categoryName].uuid
    {
      if categoryName in categories then categories[categoryName].uuid else None
    }

    /** `findUUID`: the UUID of the category with this identifier, or null. */
    function FindUUID(categoryId: string): (r: Option<string>)
      reads this
      ensures r.Some? <==> categoryId in categoryUUIDs
      ensures r.Some? ==> r.value == categoryUUIDs[categoryId]
    {
      if categoryId in categoryUUIDs then Some(categoryUUIDs[categoryId]) else None
    }

    /** `countCategories`: the number of distinct category names. */
    function CountCategories(): (n: nat)
      reads this
      ensures n == |categories.Keys|
    {
      |categories|
    }

    /** Adds a fresh category under `name` and its UUID under `id`. */
    method Put(name: string, category: Category, id: string, uuid: string)
      requires category !in categories.Values
      modifies this
      ensures Entries() == old(Entries())[name := category.Value()]
      ensures categoryUUIDs == old(categoryUUIDs)[id := uuid]
    {
      ghost var before := categories;
      categories := categories[name := category];
      categoryUUIDs := categoryUUIDs[id := uuid];
      assert forall n :: n in before && n != name ==> categories[n] == before[n];
    }

    /** Reads one YML line and applies it. */
    method Step(line: string, number: nat, levels: array<Category?>, ghost st: YmlState, uuidOf: string -> string)
      returns (failure: Option<Fatal>, newLevels: array<Category?>)
      requires |st.levels| == MaxLevels + 1 && LevelsMatch(levels, st.levels)
      requires Entries() == st.categories && categoryUUIDs == st.uuids
      modifies this, levels
      ensures failure.Some? <==> YmlStep(st, line, number, uuidOf).Failure?
      ensures failure.Some? ==> failure.value == YmlStep(st, line, number, uuidOf).error
      ensures failure.None? ==>
        LevelsMatch(newLevels, YmlStep(st, line, number, uuidOf).value.levels) &&
        Entries() == YmlStep(st, line, number, uuidOf).value.categories &&
        categoryUUIDs == YmlStep(st, line, number, uuidOf).value.uuids
      ensures newLevels == levels || fresh(newLevels)
    {
      var entry := ReadLine(line, number);
      if entry.Failure? {
        return Some(entry.error), levels;
      }
      failure, newLevels := Apply(entry.value, levels, st, number, uuidOf);
    }

    /** The effect of one YML line on the categories and on the array of
      * the latest category at each level (`categoryLevels`), which a
      * top-tier line replaces by a fresh one. */
    method Apply(entry: YmlLine, levels: array<Category?>, ghost st: YmlState, number: nat, uuidOf: string -> string)
      returns (failure: Option<Fatal>, newLevels: array<Category?>)
      requires entry.Line? ==> entry.level <= MaxLevels
      requires |st.levels| == MaxLevels + 1 && LevelsMatch(levels, st.levels)
      requires Entries() == st.categories && categoryUUIDs == st.uuids
      modifies this, levels
      ensures failure.Some? <==> YmlApply(st, entry, number, uuidOf).Failure?
      ensures failure.Some? ==> failure.value == YmlApply(st, entry, number, uuidOf).error
      ensures failure.None? ==>
        LevelsMatch(newLevels, YmlApply(st, entry, number, uuidOf).value.levels) &&
        Entries() == YmlApply(st, entry, number, uuidOf).value.categories &&
        categoryUUIDs == YmlApply(st, entry, number, uuidOf).value.uuids
      ensures newLevels == levels || fresh(newLevels)
    {
      if entry.Blank? {
        return None, levels;
      }
      if entry.level == 0 {
        failure, newLevels := ApplyTop(entry, levels, st, number, uuidOf);
      } else {
        failure := ApplyNested(entry, levels, st, number, uuidOf);
        newLevels := levels;
      }
    }

    /** A top-tier line. */
    method ApplyTop(entry: YmlLine, levels: array<Category?>, ghost st: YmlState, number: nat, uuidOf: string -> string)
      returns (failure: Option<Fatal>, newLevels: array<Category?>)
      requires entry.Line? && entry.level == 0
      requires |st.levels| == MaxLevels + 1
      requires Entries() == st.categories && categoryUUIDs == st.uuids
      modifies this
      ensures failure.Some? <==> YmlApply(st, entry, number, uuidOf).Failure?
      ensures failure.Some? ==> failure.value == YmlApply(st, entry, number, uuidOf).error
      ensures failure.None? ==>
        LevelsMatch(newLevels, YmlApply(st, entry, number, uuidOf).value.levels) &&
        Entries() == YmlApply(st, entry, number, uuidOf).value.categories &&
        categoryUUIDs == YmlApply(st, entry, number, uuidOf).value.uuids
      ensures newLevels == levels || fresh(newLevels)
    {
      var id, name := entry.id, entry.name;
      var uuid := uuidOf(id + name);
      var category := new Category(uuid, id, name, "");
      Put(name, category, id, uuid);
      if id == "" {
        return Some(NoTopIdentifier(number)), levels;
      }
      assert category.id == Some(id);
      newLevels := TopLevels(category);
      failure := None;
    }

    /** A nested line. */
    method ApplyNested(entry: YmlLine, levels: array<Category?>, ghost st: YmlState, number: nat, uuidOf: string -> string)
      returns (failure: Option<Fatal>)
      requires entry.Line? && 0 < entry.level <= MaxLevels
      requires |st.levels| == MaxLevels + 1 && LevelsMatch(levels, st.levels)
      requires Entries() == st.categories && categoryUUIDs == st.uuids
      modifies this, levels
      ensures failure.Some? <==> YmlApply(st, entry, number, uuidOf).Failure?
      ensures failure.Some? ==> failure.value == YmlApply(st, entry, number, uuidOf).error
      ensures failure.None? ==>
        LevelsMatch(levels, YmlApply(st, entry, number, uuidOf).value.levels) &&
        Entries() == YmlApply(st, entry, number, uuidOf).value.categories &&
        categoryUUIDs == YmlApply(st, entry, number, uuidOf).value.uuids
    {
      var level, id, name := entry.level, entry.id, entry.name;
      var uuid := uuidOf(id + name);
      var parent := levels[level - 1];
      if parent == null {
        return Some(InvalidIndentation(number));
      }
      var category := new Category(uuid, id, name, parent.id.value);
      if !category.HasId() && !category.HasName() {
        return Some(NoKeyNorCategory(number));
      }
      if category.HasName() && !category.HasId() {
        return Some(NoIdentifier(number));
      }
      Put(name, category, id, uuid);
      levels[level] := category;
      return None;
    }

    /** `parseYMLFile` over the lines of the file. */
    method ParseYml(lines: seq<string>, uuidOf: string -> string) returns (failure: Option<Fatal>)
      modifies this
      ensures YmlParse(old(Entries()), old(categoryUUIDs), lines, uuidOf).Failure? <==> failure.Some?
      ensures failure.Some? ==> failure.value == YmlParse(old(Entries()), old(categoryUUIDs), lines, uuidOf).error
      ensures failure.None? ==>
        Entries() == YmlParse(old(Entries()), old(categoryUUIDs), lines, uuidOf).value.categories &&
        categoryUUIDs == YmlParse(old(Entries()), old(categoryUUIDs), lines, uuidOf).value.uuids
    {
      ghost var st := YmlState(Entries(), categoryUUIDs, NoLevels());
      ghost var spec := YmlFrom(st, lines, 0, uuidOf);
      assert YmlParse(old(Entries()), old(categoryUUIDs), lines, uuidOf) ==
        if spec.Failure? then Failure(spec.error)
        else if |lines| == 0 || spec.value.categories == map[] then Failure(EmptyClassification)
        else Success(spec.value);
      var levels := NewLevels();
      var i := 0;
      while i < |lines|
        invariant i <= |lines| && fresh(levels)
        invariant |st.levels| == MaxLevels + 1 && LevelsMatch(levels, st.levels)
        invariant Entries() == st.categories && categoryUUIDs == st.uuids
        invariant spec == YmlFrom(st, lines, i, uuidOf)
      {
        var stop;
        stop, levels := Step(lines[i], i + 1, levels, st, uuidOf);
        if stop.Some? {
          return stop;
        }
        st := YmlStep(st, lines[i], i + 1, uuidOf).value;
        i := i + 1;
      }
      if |lines| == 0 || categories == map[] {
        return Some(EmptyClassification);
      }
      return None;
    }

    /** `parseCSVFile` over the records of the file after its header. */
    method ParseCsv(records: seq<seq<string>>, uuidOf: string -> string) returns (failure: Option<Fatal>)
      modifies this
      ensures CsvParse(old(Entries()), old(categoryUUIDs), records, uuidOf).Failure? <==> failure.Some?
      ensures failure.Some? ==> failure.value == CsvParse(old(Entries()), old(categoryUUIDs), records, uuidOf).error
      ensures failure.None? ==>
        Entries() == CsvParse(old(Entries()), old(categoryUUIDs), records, uuidOf).value.categories &&
        categoryUUIDs == CsvParse(old(Entries()), old(categoryUUIDs), records, uuidOf).value.uuids
    {
      ghost var start := CsvState(Entries(), categoryUUIDs);
      ghost var st := start;
      var j := 0;
      while j < |records|
        invariant j <= |records|
        invariant Entries() == st.categories && categoryUUIDs == st.uuids
        invariant CsvFrom(start, records, 0, uuidOf) == CsvFrom(st, records, j, uuidOf)
      {
        var stop := ParseRecord(records[j], st, uuidOf);
        if stop {
          return Some(ReadingFailed);
        }
        st := CsvPairs(st, "", records[j], 0, uuidOf).value;
        j := j + 1;
      }
      if categories == map[] {
        return Some(EmptyClassification);
      }
      return None;
    }

    /** The pairs of one record, left to right; a record of odd length fails
      * on its last pair. */
    method ParseRecord(rec: seq<string>, ghost st: CsvState, uuidOf: string -> string) returns (failure: bool)
      requires Entries() == st.categories && categoryUUIDs == st.uuids
      modifies this
      ensures failure <==> CsvPairs(st, "", rec, 0, uuidOf).Failure?
      ensures !failure ==>
        Entries() == CsvPairs(st, "", rec, 0, uuidOf).value.categories &&
        categoryUUIDs == CsvPairs(st, "", rec, 0, uuidOf).value.uuids
    {
      ghost var cur := st;
      var parent := "";
      var i := 0;
      while i < |rec|
        invariant Entries() == cur.categories && categoryUUIDs == cur.uuids
        invariant CsvPairs(st, "", rec, 0, uuidOf) == CsvPairs(cur, parent, rec, i, uuidOf)
      {
        if i + 1 >= |rec| {
          return true;
        }
        ghost var next := CsvAccept(cur, parent, Trim(rec[i]), Trim(rec[i + 1]), uuidOf);
        parent := AddPair(rec[i], rec[i + 1], parent, cur, uuidOf);
        cur := next.0;
        i := i + 2;
      }
      return false;
    }

    /** One (identifier, name) pair of a record; returns the parent of the
      * next pair. */
    method AddPair(rawId: string, rawName: string, parent: string, ghost st: CsvState, uuidOf: string -> string)
      returns (nextParent: string)
      requires Entries() == st.categories && categoryUUIDs == st.uuids
      modifies this
      ensures (CsvState(Entries(), categoryUUIDs), nextParent) == CsvAccept(st, parent, Trim(rawId), Trim(rawName), uuidOf)
    {
      nextParent := parent;
      if |Trim(rawName)| > 0 {
        var id := Trim(rawId);
        var name := Trim(rawName);
        var uuid := uuidOf(id + name);
        var category := new Category(uuid, id, name, parent);
        if !category.HasId() || !category.HasName() {
          return;
        }
        nextParent := id;
        if name in categories && categories[name].id == Some(id) {
          return;
        }
        Put(name, category, id, uuid);
      }
    }
  }

  /** The classification of a file: a `.yml` file is read by its lines, a
    * `.csv` file by its records; any other name is fatal. */
  method NewClassification(classFile: string, lines: seq<string>, records: seq<seq<string>>, uuidOf: string -> string)
    returns (r: Result<Classification, Fatal>)
    ensures !EndsWith(classFile, ".yml") && !EndsWith(classFile, ".csv") ==> r == Failure(NotYmlOrCsv)
    ensures EndsWith(classFile, ".yml") ==>
      var spec := YmlParse(map[], map[], lines, uuidOf);
      (r.Failure? <==> spec.Failure?) &&
      (r.Failure? ==> r.error == spec.error) &&
      (r.Success? ==> r.value.Entries() == spec.value.categories && r.value.categoryUUIDs == spec.value.uuids)
    ensures !EndsWith(classFile, ".yml") && EndsWith(classFile, ".csv") ==>
      var spec := CsvParse(map[], map[], records, uuidOf);
      (r.Failure? <==> spec.Failure?) &&
      (r.Failure? ==> r.error == spec.error) &&
      (r.Success? ==> r.value.Entries() == spec.value.categories && r.value.categoryUUIDs == spec.value.uuids)
  {
    var c := new Classification();
    assert c.Entries() == map[];
    var failure: Option<Fatal>;
    if EndsWith(classFile, ".yml") {
      failure := c.ParseYml(lines, uuidOf);
    } else if EndsWith(classFile, ".csv") {
      failure := c.ParseCsv(records, uuidOf);
    } else {
      return Failure(NotYmlOrCsv);
    }
    if failure.Some? {
      return Failure(failure.value);
    }
    return Success(c);
  }

  /** Every category the parse of a YML file stores has an identifier whose
    * UUID `findUUID` finds. */
  lemma YmlLookupsAgree(lines: seq<string>, uuidOf: string -> string)
    ensures var r := YmlParse(map[], map[], lines, uuidOf);
      r.Success? ==> forall n :: n in r.value.categories ==>
        r.value.categories[n].id.Some? && r.value.categories[n].id.value in r.value.uuids
  {
    YmlFromValid(YmlState(map[], map[], NoLevels()), lines, 0, uuidOf);
  }

  /** The same for a CSV file. */
  lemma CsvLookupsAgree(records: seq<seq<string>>, uuidOf: string -> string)
    ensures var r := CsvParse(map[], map[], records, uuidOf);
      r.Success? ==> forall n :: n in r.value.categories ==>
        r.value.categories[n].id.Some? && r.value.categories[n].id.value in r.value.uuids
  {
    CsvFromValid(CsvState(map[], map[]), records, 0, uuidOf);
  }
}
