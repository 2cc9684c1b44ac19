// `pivot_table(index=[timestamp, pod, container, namespace, node],
// columns='metric_name', values='value', aggfunc='first')` followed by
// `dropna(axis=1, how='all')`.
module Pivot {
  import opened Numbers
  import opened Strings
  import opened Sorting
  import opened Frames
  import opened PromQueries

  function KeyOf(s: Sample): Key
  {
    Key(s.timestamp, s.pod, s.container, s.namespace, s.node)
  }

  /** A sample that carries a value; `first` skips NaN. */
  predicate Observed(s: Sample) { !s.value.NaN? }

  predicate Matches(s: Sample, k: Key, m: string) { KeyOf(s) == k && s.metricName == m }

  /** The index of the pivot: every key with an observed value, sorted, once each. */
  function RowKeys(samples: seq<Sample>): (ks: seq<Key>)
    ensures StrictlySorted(ks, KeyLess)
    ensures forall k :: k in ks <==> exists i :: 0 <= i < |samples| && Observed(samples[i]) && KeyOf(samples[i]) == k
  {
    if samples == [] then []
    else
      var init := RowKeys(samples[..|samples| - 1]);
      var last := samples[|samples| - 1];
      KeyOrder();
      var ks := if Observed(last) then InsertUnique(init, KeyOf(last), KeyLess) else init;
      assert forall i :: 0 <= i < |samples| - 1 ==> samples[..|samples| - 1][i] == samples[i];
      ks
  }

  /** The columns of the pivot: every metric name with an observed value, sorted, once each. */
  function MetricNames(samples: seq<Sample>): (ms: seq<string>)
    ensures StrictlySorted(ms, Less)
    ensures forall m :: m in ms <==> exists i :: 0 <= i < |samples| && Observed(samples[i]) && samples[i].metricName == m
  {
    if samples == [] then []
    else
      var init := MetricNames(samples[..|samples| - 1]);
      var last := samples[|samples| - 1];
      StringOrder();
      var ms := if Observed(last) then InsertUnique(init, last.metricName, Less) else init;
      assert forall i :: 0 <= i < |samples| - 1 ==> samples[..|samples| - 1][i] == samples[i];
      ms
  }

  /** `aggfunc='first'`: the first observed value for the key and metric, NaN if none. */
  function First(samples: seq<Sample>, k: Key, m: string): (v: Num)
    ensures v.NaN? <==> forall i :: 0 <= i < |samples| && Matches(samples[i], k, m) ==> !Observed(samples[i])
    ensures !v.NaN? ==> exists i :: 0 <= i < |samples| && Matches(samples[i], k, m) && samples[i].value == v
                          && forall j :: 0 <= j < i && Matches(samples[j], k, m) ==> !Observed(samples[j])
  {
    if samples == [] then NaN
    else if Matches(samples[0], k, m) && Observed(samples[0]) then samples[0].value
    else
      var v := First(samples[1..], k, m);
      assert forall i :: 1 <= i < |samples| ==> samples[1..][i - 1] == samples[i];
      if !v.NaN? then
        var i :| 0 <= i < |samples[1..]| && Matches(samples[1..][i], k, m) && samples[1..][i].value == v
                 && forall j :: 0 <= j < i && Matches(samples[1..][j], k, m) ==> !Observed(samples[1..][j]);
        assert Matches(samples[i + 1], k, m) && samples[i + 1].value == v;
        v
      else
        v
  }

  function PivotRow(samples: seq<Sample>, names: seq<string>, k: Key): (r: Row)
    ensures r.key == k && r.cells.Keys == set m | m in names
    ensures forall m :: m in names ==> r.cells[m] == Number(First(samples, k, m))
  {
    Row(k, map m | m in names :: Number(First(samples, k, m)))
  }

  function PivotTable(samples: seq<Sample>): (f: Frame)
    ensures f.columns == MetricNames(samples) && Keys(f) == RowKeys(samples)
    ensures WellFormed(f)
    ensures forall i, m :: 0 <= i < |f.rows| && m in f.columns ==> NumAt(f.rows[i], m) == First(samples, f.rows[i].key, m)
  {
    var names := MetricNames(samples);
    var ks := RowKeys(samples);
    Frame(names, seq(|ks|, i requires 0 <= i < |ks| => PivotRow(samples, names, ks[i])))
  }

  predicate AnyPresent(rows: seq<Row>, c: string)
  {
    exists i :: 0 <= i < |rows| && Present(rows[i], c)
  }

  function NonEmptyColumns(cs: seq<string>, rows: seq<Row>): (r: seq<string>)
    ensures forall c :: c in r <==> c in cs && AnyPresent(rows, c)
  {
    if cs == [] then []
    else (if AnyPresent(rows, cs[0]) then [cs[0]] else []) + NonEmptyColumns(cs[1..], rows)
  }

  /** `dropna(axis=1, how='all')`: removes the columns in which every cell is missing. */
  function DropEmptyColumns(f: Frame): (r: Frame)
    ensures forall c :: Has(r, c) <==> Has(f, c) && AnyPresent(f.rows, c)
    ensures Keys(r) == Keys(f)
    ensures forall c, i :: Has(r, c) && 0 <= i < |r.rows| ==> NumAt(r.rows[i], c) == NumAt(f.rows[i], c)
  {
    var keep := NonEmptyColumns(f.columns, f.rows);
    Frame(keep, seq(|f.rows|, i requires 0 <= i < |f.rows| => Row(f.rows[i].key, Restrict(f.rows[i].cells, keep))))
  }

  function Restrict(cells: map<string, Cell>, keep: seq<string>): map<string, Cell>
  {
    map c | c in cells && c in keep :: cells[c]
  }

  /** Every row of the pivot has an observed value: pandas drops all-NaN groups. */
  lemma {:induction false} PivotRowsObserved(samples: seq<Sample>, i: nat)
    requires i < |PivotTable(samples).rows|
    ensures exists m :: m in PivotTable(samples).columns && Present(PivotTable(samples).rows[i], m)
  {
    var f := PivotTable(samples);
    var k := f.rows[i].key;
    assert k == Keys(f)[i];
    assert k in RowKeys(samples);
    var j :| 0 <= j < |samples| && Observed(samples[j]) && KeyOf(samples[j]) == k;
    var m := samples[j].metricName;
    assert m in f.columns;
    assert Matches(samples[j], k, m);
    assert !First(samples, k, m).NaN?;
    assert NumAt(f.rows[i], m) == First(samples, k, m);
  }

  /** Every column of the pivot has an observed value, so the `dropna` after it removes nothing. */
  lemma {:induction false} PivotColumnsObserved(samples: seq<Sample>, m: string)
    requires m in PivotTable(samples).columns
    ensures AnyPresent(PivotTable(samples).rows, m)
  {
    var f := PivotTable(samples);
    var j :| 0 <= j < |samples| && Observed(samples[j]) && samples[j].metricName == m;
    var k := KeyOf(samples[j]);
    assert k in RowKeys(samples);
    var i :| 0 <= i < |RowKeys(samples)| && RowKeys(samples)[i] == k;
    assert Keys(f)[i] == k;
    assert Matches(samples[j], k, m);
    assert NumAt(f.rows[i], m) == First(samples, k, m);
  }

  lemma {:induction false} NonEmptyColumnsAll(cs: seq<string>, rows: seq<Row>)
    requires forall c :: c in cs ==> AnyPresent(rows, c)
    ensures NonEmptyColumns(cs, rows) == cs
  {
    if cs != [] {
      NonEmptyColumnsAll(cs[1..], rows);
      assert cs == [cs[0]] + cs[1..];
    }
  }

  /** On a pivot, `dropna(axis=1, how='all')` changes nothing. */
  lemma {:induction false} DropEmptyColumnsOfPivot(samples: seq<Sample>)
    ensures DropEmptyColumns(PivotTable(samples)) == PivotTable(samples)
  {
    var f := PivotTable(samples);
    forall m | m in f.columns ensures AnyPresent(f.rows, m) { PivotColumnsObserved(samples, m); }
    NonEmptyColumnsAll(f.columns, f.rows);
    forall i | 0 <= i < |f.rows| ensures Restrict(f.rows[i].cells, f.columns) == f.rows[i].cells {
      RestrictAll(f.rows[i].cells, f.columns);
    }
  }

  lemma RestrictAll(cells: map<string, Cell>, keep: seq<string>)
    requires cells.Keys == set c | c in keep
    ensures Restrict(cells, keep) == cells
  {
  }
}
