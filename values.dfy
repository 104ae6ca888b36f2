// The cell and attribute values that flow through the Python graph builders:
// pandas cells, networkx attribute values and the exceptions Python raises
// when one of them has the wrong type.
module Values {
  import opened Wrappers
  import opened Text

  datatype Value =
    | Missing                          // a pandas missing cell, a float NaN
    | Null                             // Python None
    | Str(s: string)
    | Int(i: int)
    | Float(repr: string, trunc: int)  // a float that is not NaN: its printed form and int() of it
    | List(items: seq<string>)         // a list of strings
    | Set(items: seq<string>)          // a set of strings, in its iteration order

  datatype PyError =
    | TypeError(what: string)
    | ValueError(what: string)
    | IndexError(what: string)
    | AttributeError(what: string)
    | KeyError(key: string)
    | NetworkXError(what: string)
    | CypherSyntaxError(statement: string)  // raised by the database session for a rejected statement
    | FileNotFoundError(what: string)
    | NameError(name: string)               // a local variable read before it was assigned

  /** A pandas row: column name to cell. */
  type Row = map<string, Value>

  /** A pandas chunk: each row with its index label (for Wikidata chunks,
    * the item id `Q...`). */
  type Frame = seq<(string, Row)>

  /** Attribute name and the column it is copied from. */
  type Column = (string, string)

  function SameNames(cols: seq<string>): (r: seq<Column>)
    ensures |r| == |cols| && forall i :: 0 <= i < |cols| ==> r[i] == (cols[i], cols[i])
  {
    if |cols| == 0 then [] else [(cols[0], cols[0])] + SameNames(cols[1..])
  }

  /** The keyword arguments `attr=row[column]`, evaluated left to right. */
  function Scalars(row: Row, cols: seq<Column>): (r: Result<seq<(string, Value)>, PyError>)
    ensures r.Success? <==> forall i :: 0 <= i < |cols| ==> cols[i].1 in row
    ensures r.Success? ==> |r.value| == |cols| && forall i :: 0 <= i < |cols| ==> r.value[i] == (cols[i].0, row[cols[i].1])
  {
    if |cols| == 0 then Success([])
    else
      var v :- Cell(row, cols[0].1);
      var rest :- Scalars(row, cols[1..]);
      Success([(cols[0].0, v)] + rest)
  }

  predicate HasColumns(row: Row, columns: seq<string>)
  {
    forall c :: c in columns ==> c in row
  }

  /** `row[c]`: a column the frame does not have raises KeyError. */
  function Cell(row: Row, c: string): (r: Result<Value, PyError>)
    ensures r.Success? <==> c in row
    ensures r.Success? ==> r.value == row[c]
  {
    if c in row then Success(row[c]) else Failure(KeyError(c))
  }

  /** `x != x`, the NaN test the builders use for missing cells. */
  predicate IsNaN(v: Value) { v.Missing? }

  /** `isinstance(v, float)`: NaN is a float too. */
  predicate IsFloat(v: Value) { v.Missing? || v.Float? }

  function Quoted(items: seq<string>): seq<string>
  {
    if |items| == 0 then [] else ["'" + items[0] + "'"] + Quoted(items[1..])
  }

  /** `"{}".format(v)`, that is `str(v)`. */
  function Format(v: Value): string
  {
    match v
    case Missing => "nan"
    case Null => "None"
    case Str(s) => s
    case Int(i) => IntToString(i)
    case Float(repr, _) => repr
    case List(items) => "[" + Join(Quoted(items), ", ") + "]"
    case Set(items) => if |items| == 0 then "set()" else "{" + Join(Quoted(items), ", ") + "}"
  }

  /** `int(v)`: an integer, the truncation of a float, or the decimal digits
    * of a string; NaN and everything else raise. */
  function ToInt(v: Value): (r: Result<int, PyError>)
    ensures v.Int? ==> r == Success(v.i)
    ensures IsNaN(v) ==> r.Failure?
  {
    match v
    case Int(i) => Success(i)
    case Float(_, t) => Success(t)
    case Str(s) => if IsDecimal(s) then Success(DecimalValue(s)) else Failure(ValueError("invalid literal for int()"))
    case Missing => Failure(ValueError("cannot convert float NaN to integer"))
    case _ => Failure(TypeError("int() argument"))
  }

  predicate IsDecimal(s: string)
  {
    |s| > 0 && forall i :: 0 <= i < |s| ==> '0' <= s[i] <= '9'
  }

  function DecimalValue(s: string): nat
    requires IsDecimal(s)
  {
    if |s| == 1 then s[0] as int - '0' as int
    else DecimalValue(s[..|s| - 1]) * 10 + (s[|s| - 1] as int - '0' as int)
  }

  /** Reading back the decimal notation of a number gives the number. */
  lemma {:induction false} DecimalValueOfNatToString(n: nat)
    ensures IsDecimal(NatToString(n)) && DecimalValue(NatToString(n)) == n
  {
    if n >= 10 {
      DecimalValueOfNatToString(n / 10);
      var s := NatToString(n);
      assert s[..|s| - 1] == NatToString(n / 10);
    }
  }

  /** `v.split(sep)`: only a string has `split`. */
  function SplitValue(v: Value, sep: char): (r: Result<seq<string>, PyError>)
    ensures r.Success? <==> v.Str?
    ensures r.Success? ==> Join(r.value, [sep]) == v.s
  {
    if v.Str? then
      JoinSplit(v.s, sep);
      Success(Split(v.s, sep))
    else Failure(AttributeError("object has no attribute 'split'"))
  }

  /** `len(v)`: strings and collections have a length, numbers raise. */
  function Len(v: Value): (r: Result<nat, PyError>)
    ensures v.Str? ==> r == Success(|v.s|)
  {
    match v
    case Str(s) => Success(|s|)
    case List(items) => Success(|items|)
    case Set(items) => Success(|items|)
    case _ => Failure(TypeError("object has no len()"))
  }
}
