// The end of both pipelines: `create_ml_features` chains the pivot, the derived, temporal
// and statistical features and the labels; `generate_dataset` extracts the samples, stops
// early on an empty extraction, then drops sparse rows and fills the remaining numeric gaps.
module Dataset {
  import opened Wrappers
  import opened Numbers
  import opened Sorting
  import opened Frames
  import opened PromQueries
  import opened Pivot
  import opened Thresholds
  import opened DerivedFeatures
  import opened DerivedStage
  import opened Temporal
  import opened Statistics
  import opened Labels
  import opened FeatureValues

  // ---- dropna(thresh=len(df.columns) * 0.5) --------------------------------

  /** The number of cells of `x` among `cols` that pandas does not count as missing. */
  function NonMissing(x: Row, cols: seq<string>): (n: nat)
    ensures n <= |cols|
  {
    if cols == [] then 0
    else NonMissing(x, cols[..|cols| - 1]) + (if Present(x, cols[|cols| - 1]) then 1 else 0)
  }

  /** A row `dropna(thresh=len(df.columns) * 0.5)` keeps: at least half of its cells present,
      counting the five index columns, which are never missing. */
  predicate DenseEnough(f: Frame, x: Row)
  {
    2 * (KeyColumnCount + NonMissing(x, f.columns)) >= KeyColumnCount + |f.columns|
  }

  function KeepDense(f: Frame, rows: seq<Row>): (kept: seq<Row>)
    ensures |kept| <= |rows|
    ensures forall x :: x in kept <==> x in rows && DenseEnough(f, x)
  {
    if rows == [] then []
    else KeepDense(f, rows[..|rows| - 1]) + (if DenseEnough(f, rows[|rows| - 1]) then [rows[|rows| - 1]] else [])
  }

  /** `df.dropna(thresh=len(df.columns) * 0.5)`: the rows in their order, the sparse ones left out. */
  function DropSparseRows(f: Frame): (r: Frame)
    ensures r.columns == f.columns
    ensures forall x :: x in r.rows <==> x in f.rows && DenseEnough(f, x)
  {
    Frame(f.columns, KeepDense(f, f.rows))
  }

  /** `a` is `b` with some elements left out: its elements come from `b` at increasing positions. */
  ghost predicate InOrderWithin<T>(a: seq<T>, b: seq<T>)
  {
    exists idx: seq<nat> :: |idx| == |a| &&
      (forall k :: 0 <= k < |idx| ==> idx[k] < |b| && a[k] == b[idx[k]]) &&
      (forall k, l :: 0 <= k < l < |idx| ==> idx[k] < idx[l])
  }

  /** The rows `dropna` keeps stay in their order. */
  lemma {:induction false} DropSparseRowsInOrder(f: Frame)
    ensures InOrderWithin(DropSparseRows(f).rows, f.rows)
  {
    KeepDenseInOrder(f, f.rows);
  }

  lemma {:induction false} KeepDenseInOrder(f: Frame, rows: seq<Row>)
    ensures InOrderWithin(KeepDense(f, rows), rows)
    decreases |rows|
  {
    if rows == [] {
      InOrderEmpty(rows);
    } else {
      var init := rows[..|rows| - 1];
      var last := rows[|rows| - 1];
      assert rows == init + [last];
      KeepDenseInOrder(f, init);
      if DenseEnough(f, last) {
        InOrderBoth(KeepDense(f, init), init, last);
      } else {
        InOrderSkip(KeepDense(f, init), init, last);
      }
    }
  }

  lemma InOrderEmpty<T>(b: seq<T>)
    ensures InOrderWithin([], b)
  {
    var idx: seq<nat> := [];
    assert |idx| == 0;
  }

  lemma InOrderBoth<T>(a: seq<T>, b: seq<T>, x: T)
    requires InOrderWithin(a, b)
    ensures InOrderWithin(a + [x], b + [x])
  {
    var idx: seq<nat> :| |idx| == |a| && (forall k :: 0 <= k < |idx| ==> idx[k] < |b| && a[k] == b[idx[k]]) &&
      (forall k, l :: 0 <= k < l < |idx| ==> idx[k] < idx[l]);
    var idx2: seq<nat> := idx + [|b|];
    assert forall k :: 0 <= k < |idx2| ==> idx2[k] < |b + [x]| && (a + [x])[k] == (b + [x])[idx2[k]];
  }

  lemma InOrderSkip<T>(a: seq<T>, b: seq<T>, x: T)
    requires InOrderWithin(a, b)
    ensures InOrderWithin(a, b + [x])
  {
    var idx: seq<nat> :| |idx| == |a| && (forall k :: 0 <= k < |idx| ==> idx[k] < |b| && a[k] == b[idx[k]]) &&
      (forall k, l :: 0 <= k < l < |idx| ==> idx[k] < idx[l]);
    assert forall k :: 0 <= k < |idx| ==> idx[k] < |b + [x]| && a[k] == (b + [x])[idx[k]];
  }

  lemma {:induction false} AllPresentCounted(x: Row, cols: seq<string>)
    requires forall k :: 0 <= k < |cols| ==> Present(x, cols[k])
    ensures NonMissing(x, cols) == |cols|
  {
    if cols != [] {
      AllPresentCounted(x, cols[..|cols| - 1]);
    }
  }

  lemma {:induction false} NonePresentCounted(x: Row, cols: seq<string>)
    requires forall k :: 0 <= k < |cols| ==> !Present(x, cols[k])
    ensures NonMissing(x, cols) == 0
  {
    if cols != [] {
      NonePresentCounted(x, cols[..|cols| - 1]);
    }
  }

  /** A row with every cell present is kept. */
  lemma FullRowKept(f: Frame, x: Row)
    requires x in f.rows && forall k :: 0 <= k < |f.columns| ==> Present(x, f.columns[k])
    ensures x in DropSparseRows(f).rows
  {
    AllPresentCounted(x, f.columns);
  }

  /** A row with no feature present is dropped once the frame has more than five feature columns,
      and kept when it has at most five (the index columns alone reach half). */
  lemma EmptyRowKeptIffFewColumns(f: Frame, x: Row)
    requires x in f.rows && forall k :: 0 <= k < |f.columns| ==> !Present(x, f.columns[k])
    ensures x in DropSparseRows(f).rows <==> |f.columns| <= KeyColumnCount
  {
    NonePresentCounted(x, f.columns);
  }

  // ---- df[numeric_columns] = df[numeric_columns].fillna(0) -----------------

  /** A column `select_dtypes(include=[np.number])` selects: none of its cells is a category. */
  predicate NumericColumn(f: Frame, c: string)
  {
    forall i :: 0 <= i < |f.rows| && c in f.rows[i].cells ==> f.rows[i].cells[c].Number?
  }

  function FillCell(v: Cell): (w: Cell)
  {
    if v.Number? && v.n.NaN? then Number(Fin(0.0)) else v
  }

  function FillRow(f: Frame, x: Row): (y: Row)
  {
    Row(x.key, map c | c in x.cells :: if c in f.columns && NumericColumn(f, c) then FillCell(x.cells[c]) else x.cells[c])
  }

  /** The numeric columns with NaN replaced by 0; categories and present numbers are left alone. */
  function FillNumeric(f: Frame): (r: Frame)
    ensures r.columns == f.columns && Keys(r) == Keys(f)
    ensures forall i :: 0 <= i < |f.rows| ==> r.rows[i].cells.Keys == f.rows[i].cells.Keys
    ensures forall i, c :: 0 <= i < |f.rows| && c in f.rows[i].cells ==>
              r.rows[i].cells[c] == if c in f.columns && NumericColumn(f, c) && f.rows[i].cells[c] == Number(NaN)
                                    then Number(Fin(0.0)) else f.rows[i].cells[c]
  {
    Frame(f.columns, seq(|f.rows|, i requires 0 <= i < |f.rows| => FillRow(f, f.rows[i])))
  }

  /** After the fill no cell of a numeric column is NaN. */
  lemma NoGapLeft(f: Frame, i: nat, c: string)
    requires WellFormed(f) && i < |f.rows| && c in f.columns && NumericColumn(f, c)
    ensures !NumAt(FillNumeric(f).rows[i], c).NaN?
  {
    assert c in f.rows[i].cells;
  }

  /** A second fill changes nothing. */
  lemma FillIdempotent(f: Frame)
    ensures FillNumeric(FillNumeric(f)) == FillNumeric(f)
  {
    var g := FillNumeric(f);
    var h := FillNumeric(g);
    forall c | c in f.columns ensures NumericColumn(g, c) <==> NumericColumn(f, c) {
      FillKeepsNumeric(f, c);
    }
    forall i | 0 <= i < |g.rows| ensures h.rows[i] == g.rows[i] {
      FillRowFixed(f, i);
    }
    assert h.rows == g.rows;
  }

  /** The fill keeps a column numeric, and makes no column numeric. */
  lemma FillKeepsNumeric(f: Frame, c: string)
    requires c in f.columns
    ensures NumericColumn(FillNumeric(f), c) <==> NumericColumn(f, c)
  {
    var g := FillNumeric(f);
    if NumericColumn(f, c) {
      forall i | 0 <= i < |g.rows| && c in g.rows[i].cells ensures g.rows[i].cells[c].Number? {
        assert c in f.rows[i].cells;
      }
    }
    if NumericColumn(g, c) {
      forall i | 0 <= i < |f.rows| && c in f.rows[i].cells ensures f.rows[i].cells[c].Number? {
        assert c in g.rows[i].cells;
      }
    }
  }

  /** A row already filled is left as it is by a second fill. */
  lemma FillRowFixed(f: Frame, i: nat)
    requires i < |f.rows|
    requires forall c :: c in f.columns ==> (NumericColumn(FillNumeric(f), c) <==> NumericColumn(f, c))
    ensures FillNumeric(FillNumeric(f)).rows[i] == FillNumeric(f).rows[i]
  {
    var g := FillNumeric(f);
    var h := FillNumeric(g);
    assert h.rows[i].key == g.rows[i].key by {
      assert Keys(h)[i] == Keys(g)[i];
    }
    assert h.rows[i].cells == g.rows[i].cells;
  }

  // ---- create_ml_features ---------------------------------------------------

  const ClockNames := ["hour", "day_of_week", "minute", "is_weekend"]

  /** The clock columns of row `x` agree with its timestamp. */
  predicate Clocked(x: Row, offset: int)
  {
    var t := x.key.timestamp;
    NumAt(x, "hour") == Fin(Hour(t, offset) as real)
    && NumAt(x, "day_of_week") == Fin(DayOfWeek(t, offset) as real)
    && NumAt(x, "minute") == Fin(Minute(t, offset) as real)
    && NumAt(x, "is_weekend") == IsWeekend(DayOfWeek(t, offset))
  }

  /** What `create_ml_features` promises of its result `r`. */
  ghost predicate MlFeatures(raw: seq<Sample>, th: ThresholdConfig, offset: int, r: Frame)
  {
    MlShape(raw, th, offset, r)
    // the usage percentages and base ratios come from the pivoted samples, so do every
    // column no stage writes, and the rolling statistics are those of the metric columns
    && KeepsBase(BaseFrame(raw), r)
    && OwnStats(r)
  }

  /** The rows, their order, the clock columns and the labels of the result `r`. */
  ghost predicate MlShape(raw: seq<Sample>, th: ThresholdConfig, offset: int, r: Frame)
  {
    // one row per distinct key with an observed value, sorted by pod, container and time
    |r.rows| == |RowKeys(raw)|
    && (forall k :: k in Keys(r) <==> k in RowKeys(raw))
    && Sorted(r.rows, GroupTimeLess)
    // the clock columns match each row's timestamp
    && (forall c :: c in ClockNames ==> Has(r, c))
    && (forall i :: 0 <= i < |r.rows| ==> Clocked(r.rows[i], offset))
    // the labels are those of each row's own usage columns
    && (forall c :: c in LabelColumns ==> Has(r, c))
    && (forall i :: 0 <= i < |r.rows| ==> Labelled(r, r, th, i))
  }

  /** The clock, usage and label columns are not statistics columns, and the clock and usage
      columns are not label columns. */
  lemma ColumnsApart()
    ensures forall c :: c in ClockNames ==> c !in StatColumns(Metrics) && c !in LabelColumns
    ensures forall c :: c in {MemoryUsagePct, CpuUsagePct, DiskUsagePct} ==> c !in StatColumns(Metrics) && c !in LabelColumns
    ensures forall c :: c in LabelColumns ==> c !in StatColumns(Metrics)
  {
    ClockApart();
    UsageApart();
    LabelsApart();
  }

  lemma ClockApart()
    ensures forall c :: c in ClockNames ==> c !in StatColumns(Metrics) && c !in LabelColumns
  {
    ShortNotStat("hour");
    ShortNotStat("day_of_week");
    ShortNotStat("minute");
    ShortNotStat("is_weekend");
  }

  lemma UsageApart()
    ensures forall c :: c in {MemoryUsagePct, CpuUsagePct, DiskUsagePct} ==> c !in StatColumns(Metrics) && c !in LabelColumns
  {
    ShortNotStat(MemoryUsagePct);
    ShortNotStat(CpuUsagePct);
    ShortNotStat(DiskUsagePct);
  }

  lemma LabelsApart()
    ensures forall c :: c in LabelColumns ==> c !in StatColumns(Metrics)
  {
    ShortNotStat(MemoryWarning);
    ShortNotStat(MemoryOverload);
    ShortNotStat(MemoryCritical);
    ShortNotStat(CpuWarning);
    ShortNotStat(CpuOverload);
    ShortNotStat(CpuCritical);
    ShortNotStat(DiskWarning);
    ShortNotStat(DiskOverload);
    ShortNotStat(DiskCritical);
    ShortNotStat(CriticalOverload);
    ShortNotStat(OverloadSeverity);
  }

  /** Rows carried by a permutation keep their row-local facts and their keys. */
  lemma PermutedRows(a: Frame, b: Frame, offset: int)
    requires multiset(a.rows) == multiset(b.rows)
    requires forall i :: 0 <= i < |a.rows| ==> Clocked(a.rows[i], offset)
    ensures forall i :: 0 <= i < |b.rows| ==> Clocked(b.rows[i], offset)
    ensures forall k :: k in Keys(b) <==> k in Keys(a)
  {
    forall i | 0 <= i < |b.rows| ensures Clocked(b.rows[i], offset) {
      var j := RowSource(a.rows, b.rows, i);
    }
    forall k ensures k in Keys(b) <==> k in Keys(a) {
      PermutedKey(a, b, k);
      PermutedKey(b, a, k);
    }
  }

  /** A key of a permutation of `a` is a key of `a`. */
  lemma PermutedKey(a: Frame, b: Frame, k: Key)
    requires multiset(a.rows) == multiset(b.rows)
    ensures k in Keys(b) ==> k in Keys(a)
  {
    if k in Keys(b) {
      var i :| 0 <= i < |b.rows| && Keys(b)[i] == k;
      var j := RowSource(a.rows, b.rows, i);
      assert Keys(a)[j] == k;
    }
  }

  /** After the temporal stage every row's clock columns match its timestamp. */
  lemma ClockedAfterTemporal(d: Frame, t: Frame, offset: int)
    requires Keys(t) == Keys(d)
    requires Column(t, "hour") == Reals(Hours(d, offset)) && Column(t, "day_of_week") == Reals(Days(d, offset))
    requires Column(t, "minute") == Reals(Minutes(d, offset)) && Column(t, "is_weekend") == Weekends(Days(d, offset))
    ensures forall i :: 0 <= i < |t.rows| ==> Clocked(t.rows[i], offset)
  {
    forall i | 0 <= i < |t.rows| ensures Clocked(t.rows[i], offset) {
      assert Keys(t)[i] == Keys(d)[i];
      assert Column(t, "hour")[i] == NumAt(t.rows[i], "hour");
      assert Column(t, "day_of_week")[i] == NumAt(t.rows[i], "day_of_week");
      assert Column(t, "minute")[i] == NumAt(t.rows[i], "minute");
      assert Column(t, "is_weekend")[i] == NumAt(t.rows[i], "is_weekend");
    }
  }

  /** Facts about the sorted frame survive the statistics and label stages, which write
      neither the clock nor the usage columns. */
  lemma AfterSort(s: Frame, st: Frame, r: Frame, th: ThresholdConfig, offset: int)
    requires Sorted(s.rows, GroupTimeLess) && forall i :: 0 <= i < |s.rows| ==> Clocked(s.rows[i], offset)
    requires forall c :: c in ClockNames ==> Has(s, c)
    requires Agree(s, st, StatColumns(Metrics)) && Agree(st, r, LabelColumns)
    requires forall i :: 0 <= i < |st.rows| ==> Labelled(st, r, th, i)
    ensures Keys(r) == Keys(s) && Sorted(r.rows, GroupTimeLess)
    ensures forall c :: c in ClockNames ==> Has(r, c)
    ensures forall i :: 0 <= i < |r.rows| ==> Clocked(r.rows[i], offset)
    ensures forall i :: 0 <= i < |r.rows| ==> Labelled(r, r, th, i)
  {
    ColumnsApart();
    forall i, j | 0 <= i < j < |r.rows| ensures !GroupTimeLess(r.rows[j], r.rows[i]) {
      assert Keys(r)[i] == Keys(s)[i] && Keys(r)[j] == Keys(s)[j];
    }
    forall i | 0 <= i < |r.rows| ensures Clocked(r.rows[i], offset) {
      assert Keys(r)[i] == Keys(s)[i];
      assert Column(r, "hour")[i] == Column(s, "hour")[i];
      assert Column(r, "day_of_week")[i] == Column(s, "day_of_week")[i];
      assert Column(r, "minute")[i] == Column(s, "minute")[i];
      assert Column(r, "is_weekend")[i] == Column(s, "is_weekend")[i];
    }
    forall i | 0 <= i < |r.rows| ensures Labelled(r, r, th, i) {
      assert Labelled(st, r, th, i);
      UsageKept(st, r, i, MemoryUsagePct, th.memory);
      UsageKept(st, r, i, CpuUsagePct, th.cpu);
      UsageKept(st, r, i, DiskUsagePct, th.disk);
    }
  }

  lemma UsageKept(st: Frame, r: Frame, i: nat, u: string, l: Levels)
    requires Agree(st, r, LabelColumns) && u !in LabelColumns && i < |st.rows|
    ensures RowTiers(st, i, u, l) == RowTiers(r, i, u, l)
  {
  }

  /** The frame the feature stages start from: the pivot with its all-missing columns dropped. */
  function BaseFrame(raw: seq<Sample>): Frame
  {
    DropEmptyColumns(PivotTable(raw))
  }

  /** `create_ml_features`: pivot, drop the empty columns, then the four feature stages in
      order. The derived-feature stage raises `KeyError` on a frame with RSS and cache but no
      memory usage. */
  method CreateMlFeatures(raw: seq<Sample>, copy: Copy, th: ThresholdConfig, offset: int, now: real)
    returns (r: Result<Frame, string>)
    ensures r.Err? <==> RssKeyError(BaseFrame(raw))
    ensures r.Err? ==> r.error == "memory_usage_bytes"
    ensures r.Ok? ==> MlFeatures(raw, th, offset, r.value)
  {
    var base := BaseFrame(raw);
    var d := CalculateDerivedFeatures(base, copy, now);
    if d.Err? {
      return Err(d.error);
    }
    KeepsBaseAfterDerived(base, d.value, copy);
    var f := LaterStages(raw, d.value, th, offset);
    return Ok(f);
  }

  /** The temporal, statistics and label stages after the derived features. */
  method LaterStages(raw: seq<Sample>, derived: Frame, th: ThresholdConfig, offset: int) returns (f: Frame)
    requires Keys(derived) == Keys(BaseFrame(raw)) && KeepsBase(BaseFrame(raw), derived)
    ensures MlFeatures(raw, th, offset, f)
  {
    var timed := AddTemporalFeatures(derived, offset);
    var stats := AddStatisticalFeatures(timed);
    f := CreateTargetLabels(stats, th);
    var s := SortByGroupTime(timed);
    ShapeKept(raw, derived, timed, s, stats, f, th, offset);
    ValuesKept(BaseFrame(raw), derived, timed, s, stats, f);
  }

  /** The temporal, statistics and label stages give the rows, order, clock columns and
      labels `create_ml_features` promises. */
  lemma ShapeKept(raw: seq<Sample>, derived: Frame, timed: Frame, s: Frame, stats: Frame, f: Frame,
                  th: ThresholdConfig, offset: int)
    requires Keys(derived) == Keys(BaseFrame(raw)) && Agree(derived, timed, TemporalColumns)
    requires Has(timed, "hour") && Has(timed, "day_of_week") && Has(timed, "minute") && Has(timed, "is_weekend")
    requires Column(timed, "hour") == Reals(Hours(derived, offset)) && Column(timed, "day_of_week") == Reals(Days(derived, offset))
    requires Column(timed, "minute") == Reals(Minutes(derived, offset)) && Column(timed, "is_weekend") == Weekends(Days(derived, offset))
    requires s == SortByGroupTime(timed) && Agree(s, stats, StatColumns(Metrics)) && Agree(stats, f, LabelColumns)
    requires forall c :: c in LabelColumns ==> Has(f, c)
    requires forall i :: 0 <= i < |stats.rows| ==> Labelled(stats, f, th, i)
    ensures MlShape(raw, th, offset, f)
  {
    ClockedAfterTemporal(derived, timed, offset);
    PermutedRows(timed, s, offset);
    ColumnsApart();
    AfterSort(s, stats, f, th, offset);
  }

  /** The temporal, statistics and label stages keep what the derived frame keeps of the
      pivot, and the statistics read back as those of the result's own metric columns. */
  lemma ValuesKept(base: Frame, derived: Frame, timed: Frame, s: Frame, stats: Frame, f: Frame)
    requires KeepsBase(base, derived) && Agree(derived, timed, TemporalColumns) && s == SortByGroupTime(timed)
    requires Agree(s, stats, StatColumns(Metrics)) && Agree(stats, f, LabelColumns)
    requires forall k :: 0 <= k < |Metrics| && Has(timed, Metrics[k]) ==> StatsOf(s, stats, Metrics[k])
    ensures KeepsBase(base, f) && OwnStats(f)
  {
    KeepsBaseAgree(base, derived, timed, TemporalColumns);
    KeepsBasePermuted(base, timed, s);
    KeepsBaseAgree(base, s, stats, StatColumns(Metrics));
    KeepsBaseAgree(base, stats, f, LabelColumns);
    OwnStatsAfterLabels(s, stats, f);
  }

  /** The composition of `create_ml_features`: row `i` of the result is the pivoted row `j`
      with its key, and the tiers its labels read are those of the usage percentages computed
      from that pivoted row's working set and limit, CPU usage and quota, disk usage and limit. */
  lemma UsageFromSamples(raw: seq<Sample>, th: ThresholdConfig, r: Frame, i: nat) returns (j: nat)
    requires KeepsBase(BaseFrame(raw), r) && i < |r.rows|
    ensures var base := BaseFrame(raw);
            j < |base.rows| && base.rows[j].key == r.rows[i].key
            && (HasAll(base, MemoryGuard) ==>
                  RowTiers(r, i, MemoryUsagePct, th.memory) == TiersOf(true, MemoryUsagePercent(base.rows[j]), th.memory))
            && (HasAll(base, CpuGuard) ==>
                  RowTiers(r, i, CpuUsagePct, th.cpu) == TiersOf(true, CpuUsagePercent(base.rows[j]), th.cpu))
            && (HasAll(base, DiskGuard) ==>
                  RowTiers(r, i, DiskUsagePct, th.disk) == TiersOf(true, DiskUsagePercent(base.rows[j]), th.disk))
  {
    var base := BaseFrame(raw);
    assert FromBase(base, r.rows[i]);
    j :| 0 <= j < |base.rows| && RowOf(base, r.rows[i], j);
    assert forall k :: 0 <= k < 3 && HasAll(base, KeptRules[k].guard) ==> Has(r, KeptRules[k].target);
    KeptRulesAt();
    UtilisationRulesAt();
    assert KeptRules[0].target == MemoryUsagePct && KeptRules[1].target == CpuUsagePct && KeptRules[2].target == DiskUsagePct;
    assert Column(r, MemoryUsagePct)[i] == NumAt(r.rows[i], MemoryUsagePct);
    assert Column(r, CpuUsagePct)[i] == NumAt(r.rows[i], CpuUsagePct);
    assert Column(r, DiskUsagePct)[i] == NumAt(r.rows[i], DiskUsagePct);
  }

  // ---- generate_dataset ------------------------------------------------------

  datatype DatasetError =
    | ConnectionFailed                  // ConnectionError: the connection test failed
    | ExtractionFailed(e: ExtractError) // an exception raised while extracting
    | FeaturesFailed(column: string)    // KeyError on `column` raised while deriving features

  /** What `generate_dataset` returns for a non-empty extraction: the features, sparse rows
      dropped and numeric gaps filled. */
  ghost predicate Cleaned(raw: seq<Sample>, th: ThresholdConfig, offset: int, out: Frame)
  {
    exists f :: MlFeatures(raw, th, offset, f) && out == FillNumeric(DropSparseRows(f))
  }

  /** `generate_dataset`. The connection test and the Prometheus answers are parameters. */
  method GenerateDataset(copy: Copy, connected: bool, catalogue: seq<(string, string)>, podFilter: Option<string>,
                         namespace: Option<string>, prometheus: string -> Option<RangeResponse>,
                         th: ThresholdConfig, offset: int, now: real)
    returns (r: Result<Frame, DatasetError>)
    ensures !connected ==> r == Err(ConnectionFailed)
    ensures connected ==>
              match ExtractSpec(copy, catalogue, podFilter, namespace, prometheus)
              case Err(e) => r == Err(ExtractionFailed(e))
              case Ok(x) => if x.samples == [] then r == Ok(Frame([], []))
                            else if RssKeyError(BaseFrame(x.samples)) then r == Err(FeaturesFailed("memory_usage_bytes"))
                            else r.Ok? && Cleaned(x.samples, th, offset, r.value)
  {
    if !connected {
      return Err(ConnectionFailed);
    }
    var extracted := ExtractMetrics(copy, catalogue, podFilter, namespace, prometheus);
    if extracted.Err? {
      return Err(ExtractionFailed(extracted.error));
    }
    var raw := extracted.value.samples;
    if raw == [] {
      return Ok(Frame([], []));
    }
    var features := CreateMlFeatures(raw, copy, th, offset, now);
    if features.Err? {
      return Err(FeaturesFailed(features.error));
    }
    r := Ok(FillNumeric(DropSparseRows(features.value)));
  }

  /** The fill leaves a present number where it is. */
  lemma PresentKept(d: Frame, i: nat, c: string)
    requires i < |d.rows| && !NumAt(d.rows[i], c).NaN?
    ensures NumAt(FillNumeric(d).rows[i], c) == NumAt(d.rows[i], c)
  {
  }

  /** The cleaned dataset keeps only rows of the features, each at least half present, with
      keys from the samples and labels the fill leaves unchanged. */
  lemma CleanedRows(raw: seq<Sample>, th: ThresholdConfig, offset: int, f: Frame, i: nat)
    requires MlShape(raw, th, offset, f)
    requires i < |DropSparseRows(f).rows|
    ensures var d := DropSparseRows(f);
            d.rows[i] in f.rows && DenseEnough(f, d.rows[i]) && Keys(FillNumeric(d))[i] in RowKeys(raw)
    ensures var d := DropSparseRows(f);
            forall c :: c in LabelColumns ==> NumAt(FillNumeric(d).rows[i], c) == NumAt(d.rows[i], c)
  {
    var d := DropSparseRows(f);
    assert d.rows[i] in d.rows;
    var j :| 0 <= j < |f.rows| && f.rows[j] == d.rows[i];
    assert Keys(f)[j] in Keys(f);
    assert Keys(FillNumeric(d))[i] == Keys(d)[i] == Keys(f)[j];
    LabelledFinite(f, f, th, j);
    forall c | c in LabelColumns ensures NumAt(FillNumeric(d).rows[i], c) == NumAt(d.rows[i], c) {
      assert Column(f, c)[j] == NumAt(d.rows[i], c);
      PresentKept(d, i, c);
    }
  }
}
