// `df.groupby(key).column.agg(f)` as the CorpWatch builders use it: the rows
// whose key is missing are dropped, and each remaining key gets the values of
// its rows, in row order.
module Grouping {
  import opened Wrappers
  import opened Values
  import opened OrderedDicts

  /** The values paired with key `k`, in order: what pandas hands to the
    * aggregation for the group of `k`. */
  function ValuesOf(pairs: seq<(Value, Value)>, k: Value): (r: seq<Value>)
    ensures |r| <= |pairs|
    ensures forall v :: v in r <==> exists i :: 0 <= i < |pairs| && pairs[i] == (k, v)
  {
    if |pairs| == 0 then []
    else
      var init := pairs[..|pairs| - 1];
      var last := pairs[|pairs| - 1];
      var r := ValuesOf(init, k) + (if last.0 == k then [last.1] else []);
      assert forall i :: 0 <= i < |init| ==> init[i] == pairs[i];
      assert forall v :: (exists i :: 0 <= i < |init| && init[i] == (k, v)) ==> exists i :: 0 <= i < |pairs| && pairs[i] == (k, v);
      r
  }

  /** The groups, keyed by the non-missing keys in order of first appearance. */
  function GroupBy(pairs: seq<(Value, Value)>): (d: Dict<Value, seq<Value>>)
    ensures d.Valid()
  {
    if |pairs| == 0 then Empty()
    else
      var d := GroupBy(pairs[..|pairs| - 1]);
      var (k, v) := pairs[|pairs| - 1];
      if IsNaN(k) then d else d.Put(k, d.GetOr(k, []) + [v])
  }

  /** Exactly the non-missing keys that occur have a group, and each group
    * holds the values of its key's rows, in order. */
  lemma {:induction false} GroupByMeaning(pairs: seq<(Value, Value)>, k: Value)
    ensures k in GroupBy(pairs).vals <==> !IsNaN(k) && ValuesOf(pairs, k) != []
    ensures k in GroupBy(pairs).vals ==> GroupBy(pairs).vals[k] == ValuesOf(pairs, k)
  {
    if |pairs| > 0 {
      var init := pairs[..|pairs| - 1];
      GroupByMeaning(init, k);
    }
  }

  /** The key and value column of every row; a missing column raises. */
  function KeyValuePairs(df: Frame, keyColumn: string, valueColumn: string): (r: Result<seq<(Value, Value)>, PyError>)
    ensures r.Success? <==> forall i :: 0 <= i < |df| ==> keyColumn in df[i].1 && valueColumn in df[i].1
    ensures r.Success? ==> |r.value| == |df|
    ensures r.Success? ==> forall i :: 0 <= i < |df| ==> r.value[i] == (df[i].1[keyColumn], df[i].1[valueColumn])
  {
    if |df| == 0 then Success([])
    else
      var k :- Cell(df[0].1, keyColumn);
      var v :- Cell(df[0].1, valueColumn);
      var rest :- KeyValuePairs(df[1..], keyColumn, valueColumn);
      assert forall i :: 1 <= i < |df| ==> df[i] == df[1..][i - 1];
      Success([(k, v)] + rest)
  }

  /** `pd.DataFrame(df.groupby(keyColumn).valueColumn.agg(...)).reset_index()`
    * before the aggregation: one (key, values) row per group. */
  function GroupRows(df: Frame, keyColumn: string, valueColumn: string): (r: Result<seq<(Value, seq<Value>)>, PyError>)
    ensures r.Success? <==> KeyValuePairs(df, keyColumn, valueColumn).Success?
    ensures r.Success? ==>
              var pairs := KeyValuePairs(df, keyColumn, valueColumn).value;
              (forall i, j :: 0 <= i < j < |r.value| ==> r.value[i].0 != r.value[j].0) &&
              (forall i :: 0 <= i < |r.value| ==>
                 !IsNaN(r.value[i].0) && r.value[i].1 != [] && r.value[i].1 == ValuesOf(pairs, r.value[i].0)) &&
              (forall i :: 0 <= i < |pairs| && !IsNaN(pairs[i].0) ==> exists j :: 0 <= j < |r.value| && r.value[j].0 == pairs[i].0)
  {
    var pairs :- KeyValuePairs(df, keyColumn, valueColumn);
    var d := GroupBy(pairs);
    var rows := GroupedRows(d);
    forall i | 0 <= i < |rows|
      ensures !IsNaN(rows[i].0) && rows[i].1 != [] && rows[i].1 == ValuesOf(pairs, rows[i].0)
    {
      GroupByMeaning(pairs, rows[i].0);
    }
    forall i | 0 <= i < |pairs| && !IsNaN(pairs[i].0)
      ensures exists j :: 0 <= j < |rows| && rows[j].0 == pairs[i].0
    {
      GroupByMeaning(pairs, pairs[i].0);
      assert pairs[i].1 in ValuesOf(pairs, pairs[i].0);
      var j :| 0 <= j < |d.keys| && d.keys[j] == pairs[i].0;
      assert rows[j].0 == pairs[i].0;
    }
    Success(rows)
  }

  function GroupedRows(d: Dict<Value, seq<Value>>): (r: seq<(Value, seq<Value>)>)
    requires d.Valid()
    ensures |r| == |d.keys|
    ensures forall i :: 0 <= i < |r| ==> r[i] == (d.keys[i], d.vals[d.keys[i]])
  {
    seq(|d.keys|, i requires 0 <= i < |d.keys| => (d.keys[i], d.vals[d.keys[i]]))
  }
}
