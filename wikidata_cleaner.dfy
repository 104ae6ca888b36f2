// The Wikidata cleaner (wikidata/wikidata_cleaner.py): every filtered entity
// line becomes one CSV row: its id, one label, the English aliases,
// descriptions and labels, and one column per configured claim of its
// dataset (two for the coordinates).
module WikidataCleaner {
  import opened Wrappers
  import opened Text
  import opened Values
  import opened OrderedDicts

  // ---- Entities -------------------------------------------------------------------------

  /** A `{"language": …, "value": …}` pair. */
  datatype LangValue = LangValue(language: string, value: string)

  /** The `value` of a claim's `datavalue`: a plain string (web sites,
    * e-mails, …) or an object whose fields are read by name (`id`, `text`,
    * `time`, `amount`, `latitude`, `longitude`), already printed. */
  datatype DataValue = Plain(s: string) | Record(fields: map<string, string>)

  /** A claim's main snak; `datavalue` is absent for "no value" claims. */
  datatype Snak = Snak(datavalue: Option<DataValue>)

  /** The entity a dump line holds (the JSON decoding is not modelled):
    * the values of `labels`, `aliases` and `descriptions` in their order,
    * and the claims by property. */
  datatype Entity = Entity(id: string, labels: seq<LangValue>, aliases: seq<seq<LangValue>>,
                           descriptions: seq<LangValue>, claims: map<string, seq<Snak>>)

  /** The English values of some pairs, in order. */
  function English(pairs: seq<LangValue>): (r: seq<string>)
    ensures |r| <= |pairs|
    ensures forall v :: v in r <==> exists i :: 0 <= i < |pairs| && pairs[i] == LangValue("en", v)
  {
    if |pairs| == 0 then []
    else
      var rest := English(pairs[1..]);
      assert forall i :: 1 <= i < |pairs| ==> pairs[i] == pairs[1..][i - 1];
      assert forall v :: (exists i :: 0 <= i < |pairs[1..]| && pairs[1..][i] == LangValue("en", v)) ==>
                         exists i :: 0 <= i < |pairs| && pairs[i] == LangValue("en", v);
      (if pairs[0].language == "en" then [pairs[0].value] else []) + rest
  }

  function AllValues(pairs: seq<LangValue>): (r: seq<string>)
    ensures |r| == |pairs| && forall i :: 0 <= i < |pairs| ==> r[i] == pairs[i].value
  {
    seq(|pairs|, i requires 0 <= i < |pairs| => pairs[i].value)
  }

  /** The English aliases of every language's alias list, in order. */
  function EnglishAliases(lists: seq<seq<LangValue>>): seq<string>
  {
    if |lists| == 0 then [] else English(lists[0]) + EnglishAliases(lists[1..])
  }

  // ---- The label ------------------------------------------------------------------------

  /** Python's `<` on strings: code point by code point, a proper prefix first. */
  predicate LexLess(a: string, b: string)
    decreases |a|
  {
    if |a| == 0 then |b| > 0
    else if |b| == 0 then false
    else if a[0] != b[0] then a[0] < b[0]
    else LexLess(a[1..], b[1..])
  }

  lemma {:induction false} LexIrreflexive(a: string)
    ensures !LexLess(a, a)
    decreases |a|
  {
    if |a| > 0 {
      LexIrreflexive(a[1..]);
    }
  }

  lemma {:induction false} LexTransitive(a: string, b: string, c: string)
    requires LexLess(a, b) && LexLess(b, c)
    ensures LexLess(a, c)
    decreases |a|
  {
    if |a| > 0 && a[0] == b[0] && b[0] == c[0] {
      LexTransitive(a[1..], b[1..], c[1..]);
    }
  }

  lemma {:induction false} LexTotal(a: string, b: string)
    requires a != b
    ensures LexLess(a, b) || LexLess(b, a)
    decreases |a|
  {
    if |a| > 0 && |b| > 0 && a[0] == b[0] {
      assert a == [a[0]] + a[1..] && b == [b[0]] + b[1..];
      LexTotal(a[1..], b[1..]);
    }
  }

  /** How often `v` occurs. */
  function Occurrences(vals: seq<string>, v: string): nat
  {
    if |vals| == 0 then 0 else (if vals[0] == v then 1 else 0) + Occurrences(vals[1..], v)
  }

  /** `a` wins over `b` in `labels.groupby(labels).count().idxmax()`: it is
    * more frequent, or as frequent and first in the grouped (sorted) keys. */
  predicate Beats(all: seq<string>, a: string, b: string)
  {
    Occurrences(all, a) > Occurrences(all, b) || (Occurrences(all, a) == Occurrences(all, b) && LexLess(a, b))
  }

  /** The best of `c` and `vals`. */
  function Pick(all: seq<string>, vals: seq<string>, c: string): string
  {
    if |vals| == 0 then c
    else Pick(all, vals[1..], if Beats(all, vals[0], c) then vals[0] else c)
  }

  lemma BeatsTransitive(all: seq<string>, a: string, b: string, c: string)
    requires Beats(all, a, b) && Beats(all, b, c)
    ensures Beats(all, a, c)
  {
    if Occurrences(all, a) == Occurrences(all, b) && Occurrences(all, b) == Occurrences(all, c) {
      LexTransitive(a, b, c);
    }
  }

  lemma BeatsTotal(all: seq<string>, a: string, b: string)
    requires a != b
    ensures Beats(all, a, b) || Beats(all, b, a)
  {
    LexTotal(a, b);
  }

  lemma {:induction false} PickBest(all: seq<string>, vals: seq<string>, c: string)
    ensures Pick(all, vals, c) == c || Pick(all, vals, c) in vals
    ensures !Beats(all, c, Pick(all, vals, c))
    ensures forall w :: w in vals ==> !Beats(all, w, Pick(all, vals, c))
    decreases |vals|
  {
    LexIrreflexive(c);
    if |vals| > 0 {
      var next := if Beats(all, vals[0], c) then vals[0] else c;
      PickBest(all, vals[1..], next);
      var r := Pick(all, vals[1..], next);
      LexIrreflexive(vals[0]);
      if Beats(all, c, r) {
        if next == vals[0] {
          BeatsTransitive(all, vals[0], c, r);
        }
      }
      if Beats(all, vals[0], r) && next == c {
        if r != c {
          BeatsTotal(all, r, c);
          BeatsTransitive(all, vals[0], r, c);
        }
      }
      assert forall w :: w in vals ==> w == vals[0] || w in vals[1..];
    }
  }

  /** The most frequent value, ties going to the smallest. */
  function MostFrequent(all: seq<string>): string
    requires |all| > 0
  {
    Pick(all, all[1..], all[0])
  }

  /** The most frequent value is one of the values, none is more frequent,
    * and any other as frequent is greater. */
  lemma MostFrequentMeaning(all: seq<string>, w: string)
    requires |all| > 0 && w in all
    ensures MostFrequent(all) in all
    ensures Occurrences(all, w) <= Occurrences(all, MostFrequent(all))
    ensures Occurrences(all, w) == Occurrences(all, MostFrequent(all)) && w != MostFrequent(all) ==> LexLess(MostFrequent(all), w)
  {
    PickBest(all, all[1..], all[0]);
    assert w == all[0] || w in all[1..];
    if w != MostFrequent(all) {
      LexTotal(w, MostFrequent(all));
    }
  }

  /** The label: the English one if there is one, else the most frequent
    * label value, else `""`. */
  function Label(labels: seq<LangValue>): (r: string)
    ensures English(labels) != [] ==> r == English(labels)[0]
    ensures English(labels) == [] && labels == [] ==> r == ""
  {
    if English(labels) != [] then English(labels)[0]
    else if |labels| > 0 then MostFrequent(AllValues(labels))
    else ""
  }

  /** Without an English label, the label is a most frequent value. */
  lemma LabelWithoutEnglish(labels: seq<LangValue>, w: string)
    requires English(labels) == [] && w in AllValues(labels)
    ensures Label(labels) in AllValues(labels)
    ensures Occurrences(AllValues(labels), w) <= Occurrences(AllValues(labels), Label(labels))
  {
    MostFrequentMeaning(AllValues(labels), w);
  }

  // ---- The row --------------------------------------------------------------------------

  /** The five fixed columns, quoted: the label unescapes `\"` and then
    * escapes `"`; the other texts only escape `"`. */
  function BaseColumns(e: Entity): string
  {
    var name := EscapeQuotes(UnescapeQuotes(Label(e.labels)));
    var aliases := EscapeQuotes(Join(EnglishAliases(e.aliases), ";"));
    var descriptions := EscapeQuotes(Join(English(e.descriptions), ";"));
    var labels := EscapeQuotes(Join(English(e.labels), ";"));
    "\"" + e.id + "\",\"" + name + "\",\"" + aliases + "\",\"" + descriptions + "\",\"" + labels + "\""
  }

  /** Cleaning a label twice gives the same label. */
  lemma LabelCleaningIdempotent(s: string)
    ensures EscapeQuotes(UnescapeQuotes(EscapeQuotes(UnescapeQuotes(s)))) == EscapeQuotes(UnescapeQuotes(s))
  {
    EscapeUnescapeIdempotent(s);
  }

  /** A claim column: empty, or a quoted text. */
  datatype Cell = Empty | Quoted(s: string)

  function CellText(c: Cell): string
  {
    match c
    case Empty => ""
    case Quoted(s) => "\"" + s + "\""
  }

  function CellTexts(cells: seq<Cell>): (r: seq<string>)
    ensures |r| == |cells| && forall i :: 0 <= i < |cells| ==> r[i] == CellText(cells[i])
  {
    seq(|cells|, i requires 0 <= i < |cells| => CellText(cells[i]))
  }

  /** What one claim writes: the `", "` separator, then its columns,
    * separated by `", "`. */
  function ClaimText(cells: seq<Cell>): string
  {
    ", " + Join(CellTexts(cells), ", ")
  }

  /** `str(value)` for a claim whose value is used whole. */
  function PlainText(v: DataValue): (r: Result<string, PyError>)
    ensures r.Success? <==> v.Plain?
  {
    match v
    case Plain(s) => Success(s)
    case Record(_) => Failure(TypeError("sequence item: expected str instance, dict found"))
  }

  /** `value[field]`. */
  function Field(v: DataValue, field: string): (r: Result<string, PyError>)
    ensures r.Success? <==> v.Record? && field in v.fields
  {
    match v
    case Plain(_) => Failure(TypeError("string indices must be integers"))
    case Record(fs) => if field in fs then Success(fs[field]) else Failure(KeyError(field))
  }

  /** How a claim's values are read. */
  datatype Reading = Whole | ByField(field: string)

  function Read(v: DataValue, how: Reading): Result<string, PyError>
  {
    match how
    case Whole => PlainText(v)
    case ByField(f) => Field(v, f)
  }

  /** A claim value that cannot be read as asked. */
  predicate Unreadable(snak: Snak, how: Reading)
  {
    snak.datavalue.Some? && Read(snak.datavalue.value, how).Failure?
  }

  /** The values of the claims that have one, in order, read left to right:
    * the first value that cannot be read raises. */
  function SnakValues(snaks: seq<Snak>, how: Reading): (r: Result<seq<string>, PyError>)
    ensures r.Success? <==> forall i :: 0 <= i < |snaks| ==> !Unreadable(snaks[i], how)
    ensures r.Success? ==> |r.value| <= |snaks|
  {
    if |snaks| == 0 then Success([])
    else
      match snaks[0].datavalue
      case None =>
        var rest :- SnakValues(snaks[1..], how);
        assert forall i :: 1 <= i < |snaks| ==> snaks[i] == snaks[1..][i - 1];
        Success(rest)
      case Some(v) =>
        var x :- Read(v, how);
        var rest :- SnakValues(snaks[1..], how);
        assert forall i :: 1 <= i < |snaks| ==> snaks[i] == snaks[1..][i - 1];
        Success([x] + rest)
  }

  /** A failing read reports the error of the first value that cannot be
    * read, every value before it having been read. */
  lemma {:induction false} SnakValuesFirstError(snaks: seq<Snak>, how: Reading) returns (i: nat)
    requires SnakValues(snaks, how).Failure?
    ensures i < |snaks| && Unreadable(snaks[i], how)
    ensures forall j :: 0 <= j < i ==> !Unreadable(snaks[j], how)
    ensures SnakValues(snaks, how).error == Read(snaks[i].datavalue.value, how).error
  {
    if Unreadable(snaks[0], how) {
      i := 0;
    } else {
      var k := SnakValuesFirstError(snaks[1..], how);
      i := k + 1;
      forall j | 0 <= j < i
        ensures !Unreadable(snaks[j], how)
      {
        if j > 0 {
          assert snaks[j] == snaks[1..][j - 1];
        }
      }
    }
  }

  /** Two malformed values: the first one's error is raised. */
  lemma FirstMalformedValueRaises()
    ensures SnakValues([Snak(Some(Plain("a"))), Snak(Some(Record(map[])))], ByField("id")) ==
            Failure(TypeError("string indices must be integers"))
  {
  }

  /** Properties written whole. */
  const WholeCodes: seq<string> := ["P856", "P281", "P1329", "P968"]

  /** `self.claims`: properties read by a named field, and the field. */
  const FieldCodes: map<string, string> := map[
    "P1559" := "text", "P1448" := "text", "P6375" := "text",
    "P569" := "time", "P571" := "time",
    "P2021" := "amount", "P1128" := "amount", "P2139" := "amount", "P2295" := "amount",
    "P2403" := "amount", "P3362" := "amount"]

  /** The coordinate property, written as two columns. */
  const Coordinates := "P625"

  /** How many columns a claim takes. */
  function Width(code: string): nat
  {
    if code == Coordinates then 2 else 1
  }

  function ColumnCount(codes: seq<string>): nat
  {
    if |codes| == 0 then 0 else Width(codes[0]) + ColumnCount(codes[1..])
  }

  /** The columns of one claim. An absent claim gives empty columns. A
    * present one gives the `;`-joined values, escaped when read by a
    * field; the coordinates give the latitude and longitude of the first
    * claim, and empty columns when that claim has no value. */
  function ClaimCells(code: string, claims: map<string, seq<Snak>>): (r: Result<seq<Cell>, PyError>)
    ensures r.Success? ==> |r.value| == Width(code)
    ensures code !in claims ==> r.Success? && forall c :: c in r.value ==> c == Empty
    ensures r.Failure? ==> code in claims
  {
    if code !in claims then Success(if code == Coordinates then [Empty, Empty] else [Empty])
    else if code in WholeCodes then
      var vs :- SnakValues(claims[code], Whole);
      Success([Quoted(Join(vs, ";"))])
    else if code == Coordinates then
      var snaks := claims[code];
      if |snaks| == 0 then Failure(IndexError("list index out of range"))
      else
        match snaks[0].datavalue
        case None => Success([Empty, Empty])
        case Some(v) =>
          var lat :- Field(v, "latitude");
          var lon :- Field(v, "longitude");
          Success([Quoted(lat), Quoted(lon)])
    else if code in FieldCodes then
      var vs :- SnakValues(claims[code], ByField(FieldCodes[code]));
      Success([Quoted(EscapeQuotes(Join(vs, ";")))])
    else
      var vs :- SnakValues(claims[code], ByField("id"));
      Success([Quoted(Join(vs, ";"))])
  }

  /** The claim columns of a row until the first error: the separator of
    * the failing claim is already written. */
  function ClaimsOutput(codes: seq<string>, claims: map<string, seq<Snak>>): (r: (string, Option<PyError>, seq<Cell>))
    decreases |codes|
  {
    if |codes| == 0 then ("", None, [])
    else
      var k := |codes| - 1;
      var prev := ClaimsOutput(codes[..k], claims);
      if prev.1.Some? then prev
      else
        match ClaimCells(codes[k], claims)
        case Failure(e) => (prev.0 + ", ", Some(e), prev.2)
        case Success(cs) => (prev.0 + ClaimText(cs), None, prev.2 + cs)
  }

  /** The error a computation raised, if any. */
  function ErrorOf<T>(r: Result<T, PyError>): Option<PyError>
  {
    if r.Failure? then Some(r.error) else None
  }

  /** The error each claim of a row raises, if any, claim by claim. */
  function ClaimErrors(codes: seq<string>, claims: map<string, seq<Snak>>): (r: seq<Option<PyError>>)
    ensures |r| == |codes|
  {
    seq(|codes|, i requires 0 <= i < |codes| => ErrorOf(ClaimCells(codes[i], claims)))
  }

  /** Writing the claims of a row stops with the error of the first claim
    * that raises (see FirstErrorMeaning). */
  lemma {:induction false} ClaimsOutputError(codes: seq<string>, claims: map<string, seq<Snak>>)
    ensures ClaimsOutput(codes, claims).1 == FirstError(ClaimErrors(codes, claims))
    decreases |codes|
  {
    if |codes| > 0 {
      var k := |codes| - 1;
      ClaimsOutputError(codes[..k], claims);
      assert ClaimErrors(codes, claims)[..k] == ClaimErrors(codes[..k], claims);
    }
  }

  /** A row whose claims raised ends with the failing claim's separator. */
  lemma {:induction false} ClaimsOutputStops(codes: seq<string>, claims: map<string, seq<Snak>>)
    ensures var r := ClaimsOutput(codes, claims);
            r.1.Some? ==> |r.0| >= 2 && r.0[|r.0| - 2..] == ", "
    decreases |codes|
  {
    if |codes| > 0 {
      ClaimsOutputStops(codes[..|codes| - 1], claims);
    }
  }

  /** A row that is written whole has exactly as many claim columns as its
    * dataset's claims take. */
  lemma {:induction false} RowColumns(codes: seq<string>, claims: map<string, seq<Snak>>)
    requires ClaimsOutput(codes, claims).1.None?
    ensures |ClaimsOutput(codes, claims).2| == ColumnCount(codes)
    decreases |codes|
  {
    if |codes| > 0 {
      var k := |codes| - 1;
      RowColumns(codes[..k], claims);
      ColumnCountAppend(codes[..k], codes[k]);
      assert codes[..k] + [codes[k]] == codes;
    }
  }

  lemma {:induction false} ColumnCountAppend(codes: seq<string>, code: string)
    ensures ColumnCount(codes + [code]) == ColumnCount(codes) + Width(code)
    decreases |codes|
  {
    if |codes| > 0 {
      assert (codes + [code])[1..] == codes[1..] + [code];
      ColumnCountAppend(codes[1..], code);
    }
  }

  // ---- The coordinates without a value, as written -----------------------------------

  /** One claim as written: a claim present with a value gives the same text
    * as `ClaimCells`, but coordinates whose first claim has no value write
    * whatever `output` an earlier claim left behind (in this row or an
    * earlier one), and fail when there is none. Returns the text written
    * and the `output` left for later claims. */
  function ClaimAsWritten(code: string, claims: map<string, seq<Snak>>, last: Option<string>): Result<(string, Option<string>), PyError>
  {
    if code == Coordinates && code in claims && |claims[code]| > 0 && claims[code][0].datavalue.None? then
      match last
      case None => Failure(NameError("output"))
      case Some(o) => Success((", " + o, last))
    else
      var cells :- ClaimCells(code, claims);
      if code in claims then Success((ClaimText(cells), Some(Join(CellTexts(cells), ", "))))
      else Success((ClaimText(cells), last))
  }

  /** The claim columns of a row as written, up to the first error, with the
    * `output` left behind. */
  function ClaimsAsWritten(codes: seq<string>, claims: map<string, seq<Snak>>, last: Option<string>): (r: (string, Option<PyError>, Option<string>))
    decreases |codes|
  {
    if |codes| == 0 then ("", None, last)
    else
      match ClaimAsWritten(codes[0], claims, last)
      case Failure(e) => (", ", Some(e), last)
      case Success((t, next)) =>
        var rest := ClaimsAsWritten(codes[1..], claims, next);
        (t + rest.0, rest.1, rest.2)
  }

  /** The claims of an organization with an e-mail address and coordinates without a value. */
  const MailNoCoordinates: map<string, seq<Snak>> := map["P968" := [Snak(Some(Plain("x@y")))], "P625" := [Snak(None)]]

  /** As written, the e-mail is repeated where the coordinates go: the row is
    * one column short. */
  lemma StaleCoordinatesAsWritten()
    ensures ClaimsAsWritten(["P968", "P625"], MailNoCoordinates, None).0 == ", \"x@y\", \"x@y\""
  {
    MailCells();
    assert ClaimAsWritten("P968", MailNoCoordinates, None) == Success((", \"x@y\"", Some("\"x@y\"")));
    assert ["P968", "P625"][1..] == ["P625"];
  }

  /** The model writes the two empty columns, and the row keeps its width. */
  lemma StaleCoordinatesCorrected()
    ensures ClaimsOutput(["P968", "P625"], MailNoCoordinates).0 == ", \"x@y\", , "
    ensures |ClaimsOutput(["P968", "P625"], MailNoCoordinates).2| == ColumnCount(["P968", "P625"])
  {
    MailCells();
    assert ["P968", "P625"][..1] == ["P968"];
    assert ["P968"][..0] == [];
  }

  lemma MailCells()
    ensures ClaimCells("P968", MailNoCoordinates) == Success([Quoted("x@y")])
    ensures ClaimText([Quoted("x@y")]) == ", \"x@y\"" && Join(CellTexts([Quoted("x@y")]), ", ") == "\"x@y\""
  {
    assert "P968" in WholeCodes && "P968" != Coordinates && "P968" in MailNoCoordinates;
    SingleValue(Plain("x@y"), Whole);
    var texts := CellTexts([Quoted("x@y")]);
    assert |texts| == 1 && texts[0] == "\"x@y\"";
  }

  lemma SingleValue(v: DataValue, how: Reading)
    requires Read(v, how).Success?
    ensures SnakValues([Snak(Some(v))], how) == Success([Read(v, how).value])
  {
    assert [Snak(Some(v))][1..] == [];
    assert [Read(v, how).value] + [] == [Read(v, how).value];
  }

  /** When the first coordinates claim of a run has no value and nothing was
    * written before, the cleaner fails. */
  lemma StaleCoordinatesFirst()
    ensures ClaimsAsWritten([Coordinates], map[Coordinates := [Snak(None)]], None).1 == Some(NameError("output"))
  {
  }

  /** One CSV row, up to the first error: it ends with its line break
    * exactly when every claim could be written, and otherwise with the
    * separator of the claim that raised. */
  function RowOutput(codes: seq<string>, e: Entity): (string, Option<PyError>)
  {
    var claims := ClaimsOutput(codes, e.claims);
    (BaseColumns(e) + claims.0 + (if claims.1.None? then "\n" else ""), claims.1)
  }

  /** The claims of a row are written whole exactly when every claim can be
    * written. */
  lemma ClaimsWhole(codes: seq<string>, claims: map<string, seq<Snak>>)
    ensures ClaimsOutput(codes, claims).1.None? <==> forall i :: 0 <= i < |codes| ==> ClaimCells(codes[i], claims).Success?
  {
    ClaimsOutputError(codes, claims);
    var errs := ClaimErrors(codes, claims);
    var _ := FirstErrorMeaning(errs);
    assert forall i :: 0 <= i < |codes| ==> (errs[i].None? <==> ClaimCells(codes[i], claims).Success?);
  }

  /** A row stops with the error of its first claim that raises; it is
    * never empty, and ends with its line break when written whole and with
    * the failing claim's separator otherwise. */
  lemma RowOutputMeaning(codes: seq<string>, e: Entity)
    ensures var r := RowOutput(codes, e);
            r.1 == FirstError(ClaimErrors(codes, e.claims)) &&
            |r.0| > 0 &&
            (r.1.None? ==> r.0[|r.0| - 1] == '\n') &&
            (r.1.Some? ==> r.0[|r.0| - 1] == ' ')
  {
    ClaimsOutputError(codes, e.claims);
    ClaimsOutputStops(codes, e.claims);
  }

  // ---- Datasets --------------------------------------------------------------------------

  /** A dataset: its claims and the header columns after the fixed ones. */
  datatype Dataset = Dataset(claims: seq<string>, columns: seq<string>)

  function Header(columns: seq<string>): string
  {
    if |columns| == 0 then "" else "," + columns[0] + Header(columns[1..])
  }

  const NoClaims := Dataset([], [])
  const Human := Dataset(
    ["P21", "P106", "P1559", "P569", "P2021", "P27", "P19", "P463", "P166"],
    [" Gender", " Occupation", " Name", " Date_of_Birth", " Erdos_Number", " Citizenship", " Place_of_Birth",
     " Member_of", " Received_Grant"])
  /** The organizations' claims, in three parts: up to the coordinates, then the rest. */
  const OrganizationClaimsHead := ["P571", "P856", "P1448", "P1128", "P2139", "P2295", "P2403", "P3362", "P1329",
                                   "P968", "P625"]
  const OrganizationClaimsMiddle := ["P6375", "P112", "P169", "P1037", "P488", "P3320", "P414", "P361", "P452",
                                     "P1830", "P127"]
  const OrganizationClaimsTail := ["P749", "P355", "P463", "P1889", "P1366", "P1365", "P166", "P17", "P740", "P281",
                                   "P1056"]
  const Organizations := Dataset(
    OrganizationClaimsHead + OrganizationClaimsMiddle + OrganizationClaimsTail,
    [" Inception", "Official_website", "Official_name", "Employees", "Total_revenue", "Net_profit", "Total_assets",
     "Operating_income", "Phone_number", "E_mail", "Latitude", "Longitude", "Address", "Founded_by",
     "Chief_executive_officer", "Director", "Chairperson", "Board_member", "In_stock_exchange", "Part_of",
     "In_industry", "Owner_of", "Owned_by", "Parent_organization", "Subsidiary", "Member_of", "Different_from",
     "Replaced_by", "Replaces", "Received_grant", "Country", "Location_of_formation", " Postal_code", "Produces"])
  const Products := Dataset(["P571", "P275"], [" Inception", " License"])

  /** `self.datasets`, in its key order. */
  const Datasets: map<string, Dataset> := map[
    "country" := NoClaims, "human" := Human, "grant" := NoClaims, "market" := NoClaims, "trading_venue" := NoClaims,
    "industry" := NoClaims, "groups" := NoClaims, "organizations" := Organizations, "products" := Products]

  /** The header of the people dataset names as many columns as its claims fill. */
  lemma HumanHeaderMatches()
    ensures ColumnCount(Human.claims) == |Human.columns|
  {
  }

  /** The header of the products dataset names as many columns as its claims fill. */
  lemma ProductsHeaderMatches()
    ensures ColumnCount(Products.claims) == |Products.columns|
  {
  }

  /** The header of the organizations dataset names as many columns as its
    * claims fill: one more than there are claims, for the coordinates. */
  lemma OrganizationsHeaderMatches()
    ensures ColumnCount(Organizations.claims) == |Organizations.columns|
  {
    ColumnCountConcat(OrganizationClaimsHead + OrganizationClaimsMiddle, OrganizationClaimsTail);
    ColumnCountConcat(OrganizationClaimsHead, OrganizationClaimsMiddle);
    HeadColumns();
    MiddleColumns();
    TailColumns();
  }

  lemma HeadColumns()
    ensures ColumnCount(OrganizationClaimsHead) == 12
  {
  }

  lemma MiddleColumns()
    ensures ColumnCount(OrganizationClaimsMiddle) == 11
  {
  }

  lemma TailColumns()
    ensures ColumnCount(OrganizationClaimsTail) == 11
  {
  }

  lemma {:induction false} ColumnCountConcat(a: seq<string>, b: seq<string>)
    ensures ColumnCount(a + b) == ColumnCount(a) + ColumnCount(b)
    decreases |a|
  {
    if |a| > 0 {
      assert (a + b)[0] == a[0] && (a + b)[1..] == a[1..] + b;
      ColumnCountConcat(a[1..], b);
    } else {
      assert a + b == b;
    }
  }

  /** The first line of a cleaned file. */
  function HeaderLine(d: Dataset): string
  {
    "ID,Label,Aliases,Descriptions,Labels" + Header(d.columns) + "\n"
  }

  /** `json.loads(j_line[:-2])`: the line without its `,` and line break. */
  function Stripped(line: string): string
  {
    if |line| < 2 then "" else line[..|line| - 2]
  }

  /** The text of a cleaned file: the header, then one row per line, up to
    * the first error. */
  function CleanedText(d: Dataset, lines: seq<string>, parse: string -> Entity): (r: (string, Option<PyError>))
    ensures |HeaderLine(d)| <= |r.0| && r.0[..|HeaderLine(d)|] == HeaderLine(d)
    decreases |lines|
  {
    if |lines| == 0 then (HeaderLine(d), None)
    else
      var k := |lines| - 1;
      var prev := CleanedText(d, lines[..k], parse);
      assert (prev.0 + RowOutput(d.claims, parse(Stripped(lines[k]))).0)[..|HeaderLine(d)|] == prev.0[..|HeaderLine(d)|];
      CleanedLine(prev, d, lines[k], parse)
  }

  /** The text after one more line: nothing more once an error occurred. */
  function CleanedLine(prev: (string, Option<PyError>), d: Dataset, line: string, parse: string -> Entity): (string, Option<PyError>)
  {
    if prev.1.Some? then prev
    else
      var row := RowOutput(d.claims, parse(Stripped(line)));
      (prev.0 + row.0, row.1)
  }

  /** A dataset to clean: its name, its claims and header, and its input file. */
  datatype Job = Job(name: string, dataset: Dataset, path: string)

  /** The cleaned files of the datasets in turn, up to the first error. A
    * file that cannot be read gives no output file. */
  function CleanAll(jobs: seq<Job>, contents: string -> Option<seq<string>>, parse: string -> Entity): (r: (map<string, string>, Option<PyError>))
    ensures r.0.Keys <= Names(jobs)
    decreases |jobs|
  {
    if |jobs| == 0 then (map[], None)
    else
      var k := |jobs| - 1;
      var prev := CleanAll(jobs[..k], contents, parse);
      assert Names(jobs[..k]) <= Names(jobs);
      CleanedJob(prev, jobs[k], contents, parse)
  }

  /** The names of the datasets. */
  function Names(jobs: seq<Job>): set<string>
  {
    set i | 0 <= i < |jobs| :: jobs[i].name
  }

  /** The error cleaning one dataset raises, if any: its file is missing,
    * or one of its rows raises. */
  function JobError(job: Job, contents: string -> Option<seq<string>>, parse: string -> Entity): Option<PyError>
  {
    match contents(job.path)
    case None => Some(FileNotFoundError(job.path))
    case Some(lines) => CleanedText(job.dataset, lines, parse).1
  }

  /** The error of each dataset in turn, if any. */
  function JobErrors(jobs: seq<Job>, contents: string -> Option<seq<string>>, parse: string -> Entity): (r: seq<Option<PyError>>)
    ensures |r| == |jobs|
  {
    seq(|jobs|, i requires 0 <= i < |jobs| => JobError(jobs[i], contents, parse))
  }

  /** The outputs after one more dataset: nothing more once an error occurred. */
  function CleanedJob(prev: (map<string, string>, Option<PyError>), job: Job, contents: string -> Option<seq<string>>, parse: string -> Entity): (map<string, string>, Option<PyError>)
  {
    if prev.1.Some? then prev
    else
      match contents(job.path)
      case None => (prev.0, Some(FileNotFoundError(job.path)))
      case Some(lines) =>
        var cleaned := CleanedText(job.dataset, lines, parse);
        (prev.0[job.name := cleaned.0], cleaned.1)
  }

  // ---- The cleaner -----------------------------------------------------------------------

  /** The `files` argument: a dictionary from dataset to input file, or
    * anything else. */
  datatype FilesArg = DictArg(d: Dict<string, string>) | NotADict

  /** `WikidataCleaner(files)`: `files` must be a dictionary whose keys are
    * all dataset names. */
  function CheckFiles(files: FilesArg): (r: Result<seq<Job>, PyError>)
    requires files.DictArg? ==> files.d.Valid()
    ensures r.Success? <==> files.DictArg? && forall k :: k in files.d.keys ==> k in Datasets
    ensures r.Success? ==> |r.value| == |files.d.keys| &&
                           forall i :: 0 <= i < |r.value| ==>
                             r.value[i] == Job(files.d.keys[i], Datasets[files.d.keys[i]], files.d.vals[files.d.keys[i]])
  {
    match files
    case NotADict => Failure(ValueError("Please pass a dictionary as an argument for files"))
    case DictArg(d) =>
      if forall k :: k in d.keys ==> k in Datasets then
        Success(seq(|d.keys|, i requires 0 <= i < |d.keys| => Job(d.keys[i], Datasets[d.keys[i]], d.vals[d.keys[i]])))
      else Failure(ValueError("Not a valid Entity."))
  }

  class Cleaner {
    /** The datasets to clean with their input files, in the dictionary's order. */
    const jobs: seq<Job>
    /** What has been written to each dataset's cleaned file. */
    var outputs: map<string, string>

    constructor (jobs: seq<Job>)
      ensures this.jobs == jobs && outputs == map[]
    {
      this.jobs := jobs;
      outputs := map[];
    }

    /** `clean()`: each dataset's file in turn. */
    method Clean(contents: string -> Option<seq<string>>, parse: string -> Entity) returns (failure: Option<PyError>)
      modifies this
      ensures outputs == old(outputs) + CleanAll(jobs, contents, parse).0
      ensures failure == CleanAll(jobs, contents, parse).1
    {
      ghost var written: map<string, string> := map[];
      var i := 0;
      assert jobs[..0] == [];
      while i < |jobs|
        invariant 0 <= i <= |jobs|
        invariant CleanAll(jobs[..i], contents, parse) == (written, None)
        invariant outputs == old(outputs) + written
      {
        CleanAllNext(jobs, i, contents, parse);
        var lines := contents(jobs[i].path);
        if lines.None? {
          CleanAllStop(jobs, contents, parse, i + 1);
          return Some(FileNotFoundError(jobs[i].path));
        }
        var text, err := CleanFile(jobs[i].dataset, lines.value, parse);
        MergeUpdate(old(outputs), written, jobs[i].name, text);
        outputs := outputs[jobs[i].name := text];
        written := written[jobs[i].name := text];
        if err.Some? {
          CleanAllStop(jobs, contents, parse, i + 1);
          return err;
        }
        i := i + 1;
      }
      assert jobs[..i] == jobs;
      return None;
    }
  }

  /** One file: the header, then a row per line until the first error. */
  method CleanFile(d: Dataset, lines: seq<string>, parse: string -> Entity) returns (text: string, failure: Option<PyError>)
    ensures (text, failure) == CleanedText(d, lines, parse)
  {
    text := HeaderLine(d);
    var i := 0;
    assert lines[..0] == [];
    while i < |lines|
      invariant 0 <= i <= |lines|
      invariant CleanedText(d, lines[..i], parse) == (text, None)
    {
      assert lines[..i + 1][..i] == lines[..i];
      var (row, err) := RowOutput(d.claims, parse(Stripped(lines[i])));
      text := text + row;
      if err.Some? {
        CleanedTextStop(d, lines, parse, i + 1);
        return text, err;
      }
      i := i + 1;
    }
    assert lines[..i] == lines;
    return text, None;
  }

  lemma {:induction false} CleanedTextStop(d: Dataset, lines: seq<string>, parse: string -> Entity, m: nat)
    requires m <= |lines| && CleanedText(d, lines[..m], parse).1.Some?
    ensures CleanedText(d, lines, parse) == CleanedText(d, lines[..m], parse)
    decreases |lines| - m
  {
    if m < |lines| {
      var k := |lines| - 1;
      assert lines[..k][..m] == lines[..m];
      CleanedTextStop(d, lines[..k], parse, m);
    } else {
      assert lines[..m] == lines;
    }
  }

  /** The error each line's row raises, if any, line by line. */
  function RowErrors(d: Dataset, lines: seq<string>, parse: string -> Entity): (r: seq<Option<PyError>>)
    ensures |r| == |lines|
  {
    seq(|lines|, i requires 0 <= i < |lines| => RowOutput(d.claims, parse(Stripped(lines[i]))).1)
  }

  /** The first error of a run, if any. */
  function FirstError(errs: seq<Option<PyError>>): Option<PyError>
    decreases |errs|
  {
    if |errs| == 0 then None
    else
      var prev := FirstError(errs[..|errs| - 1]);
      if prev.Some? then prev else errs[|errs| - 1]
  }

  /** A run has no first error exactly when no step raised; otherwise the
    * first error is that of the first step that raised. */
  lemma {:induction false} FirstErrorMeaning(errs: seq<Option<PyError>>) returns (i: nat)
    ensures FirstError(errs).None? <==> forall j :: 0 <= j < |errs| ==> errs[j].None?
    ensures FirstError(errs).Some? ==>
              i < |errs| && errs[i] == FirstError(errs) && forall j :: 0 <= j < i ==> errs[j].None?
    decreases |errs|
  {
    i := 0;
    if |errs| > 0 {
      var k := |errs| - 1;
      i := FirstErrorMeaning(errs[..k]);
      assert forall j :: 0 <= j < k ==> errs[..k][j] == errs[j];
      if FirstError(errs[..k]).None? {
        i := k;
      }
    }
  }

  /** A file's cleaning stops with the error of its first row that raises,
    * and ends without error exactly when every row is written whole. */
  lemma {:induction false} CleanedTextError(d: Dataset, lines: seq<string>, parse: string -> Entity)
    ensures CleanedText(d, lines, parse).1 == FirstError(RowErrors(d, lines, parse))
    decreases |lines|
  {
    if |lines| > 0 {
      var k := |lines| - 1;
      CleanedTextError(d, lines[..k], parse);
      assert RowErrors(d, lines, parse)[..k] == RowErrors(d, lines[..k], parse);
    }
  }

  /** Cleaning the datasets stops with the error of the first dataset that
    * raises (see FirstErrorMeaning). */
  lemma {:induction false} CleanAllError(jobs: seq<Job>, contents: string -> Option<seq<string>>, parse: string -> Entity)
    ensures CleanAll(jobs, contents, parse).1 == FirstError(JobErrors(jobs, contents, parse))
    decreases |jobs|
  {
    if |jobs| > 0 {
      var k := |jobs| - 1;
      CleanAllError(jobs[..k], contents, parse);
      assert JobErrors(jobs, contents, parse)[..k] == JobErrors(jobs[..k], contents, parse);
    }
  }

  /** When no dataset raises, every dataset has its output file. */
  lemma {:induction false} CleanAllNames(jobs: seq<Job>, contents: string -> Option<seq<string>>, parse: string -> Entity)
    ensures CleanAll(jobs, contents, parse).1.None? ==> Names(jobs) <= CleanAll(jobs, contents, parse).0.Keys
    decreases |jobs|
  {
    if |jobs| > 0 {
      var k := |jobs| - 1;
      CleanAllNames(jobs[..k], contents, parse);
      assert Names(jobs) == Names(jobs[..k]) + {jobs[k].name};
    }
  }

  lemma MergeUpdate<K, V>(a: map<K, V>, b: map<K, V>, k: K, v: V)
    ensures (a + b)[k := v] == a + b[k := v]
  {
  }

  lemma CleanAllNext(jobs: seq<Job>, i: nat, contents: string -> Option<seq<string>>, parse: string -> Entity)
    requires i < |jobs| && CleanAll(jobs[..i], contents, parse).1.None?
    ensures contents(jobs[i].path).None? ==>
              CleanAll(jobs[..i + 1], contents, parse) == (CleanAll(jobs[..i], contents, parse).0, Some(FileNotFoundError(jobs[i].path)))
    ensures contents(jobs[i].path).Some? ==>
              var cleaned := CleanedText(jobs[i].dataset, contents(jobs[i].path).value, parse);
              CleanAll(jobs[..i + 1], contents, parse) == (CleanAll(jobs[..i], contents, parse).0[jobs[i].name := cleaned.0], cleaned.1)
  {
    assert jobs[..i + 1][..i] == jobs[..i];
  }

  lemma {:induction false} CleanAllStop(jobs: seq<Job>, contents: string -> Option<seq<string>>, parse: string -> Entity, m: nat)
    requires m <= |jobs| && CleanAll(jobs[..m], contents, parse).1.Some?
    ensures CleanAll(jobs, contents, parse) == CleanAll(jobs[..m], contents, parse)
    decreases |jobs| - m
  {
    if m < |jobs| {
      var k := |jobs| - 1;
      assert jobs[..k][..m] == jobs[..m];
      CleanAllStop(jobs[..k], contents, parse, m);
    } else {
      assert jobs[..m] == jobs;
    }
  }

  /** `WikidataCleaner(files)`. */
  method NewCleaner(files: FilesArg) returns (r: Result<Cleaner, PyError>)
    requires files.DictArg? ==> files.d.Valid()
    ensures CheckFiles(files).Failure? ==> r == Failure(CheckFiles(files).error)
    ensures r.Success? ==> CheckFiles(files) == Success(r.value.jobs) && fresh(r.value) && r.value.outputs == map[]
  {
    var checked := CheckFiles(files);
    if checked.Failure? {
      return Failure(checked.error);
    }
    var c := new Cleaner(checked.value);
    return Success(c);
  }
}
