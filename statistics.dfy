// The rolling statistics of both copies (lab/ml_dataset_generator.py:668-700,
// apps/kube-stress/coleta/sistema_coleta_dados.py:385-417): the frame is sorted by
// (pod, container, timestamp), then four columns are added per usage metric, each computed
// within the metric's (pod, container) group.
module Statistics {
  import opened Wrappers
  import opened Numbers
  import opened Averages
  import opened Frames
  import opened Sorting
  import opened Groups
  import opened DerivedFeatures

  /** `df.sort_values(['pod', 'container', 'timestamp'])`, as a stable sort. */
  function SortByGroupTime(df: Frame): (s: Frame)
    ensures s.columns == df.columns
    ensures multiset(s.rows) == multiset(df.rows) && |s.rows| == |df.rows|
    ensures Sorted(s.rows, GroupTimeLess)
  {
    GroupTimeOrder();
    Frame(df.columns, InsertionSort(df.rows, GroupTimeLess))
  }

  /** After the sort, the rows of one group come in time order. */
  lemma SortedGroupsInTime(s: Frame, i: nat, j: nat)
    requires Sorted(s.rows, GroupTimeLess) && i < j < |s.rows|
    requires SameGroup(s.rows[i].key, s.rows[j].key)
    ensures s.rows[i].key.timestamp <= s.rows[j].key.timestamp
  {
    assert !GroupTimeLess(s.rows[j], s.rows[i]);
  }

  /** The rows of `rolling(window=5)` at row `i`: row `i` and the up to four rows of its
      group just before it. */
  function Window(keys: seq<Key>, i: nat): (w: seq<nat>)
    requires i < |keys|
    ensures 1 <= |w| <= 5 && w[|w| - 1] == i
    ensures forall a :: 0 <= a < |w| ==> w[a] <= i && SameGroup(keys[w[a]], keys[i])
    ensures forall a, b :: 0 <= a < b < |w| ==> w[a] < w[b]
  {
    var g := GroupBefore(keys, keys[i], i);
    var k := if |g| > 4 then |g| - 4 else 0;
    WindowOfGroup(keys, i, g, k);
    g[k..] + [i]
  }

  /** A tail of the group rows before `i`, then `i`: increasing rows of `i`'s group. */
  lemma WindowOfGroup(keys: seq<Key>, i: nat, g: seq<nat>, k: nat)
    requires i < |keys| && k <= |g|
    requires forall j: int :: j in g <==> 0 <= j < i && SameGroup(keys[j], keys[i])
    requires forall a, b :: 0 <= a < b < |g| ==> g[a] < g[b]
    ensures var w := g[k..] + [i];
      w[|w| - 1] == i &&
      (forall a :: 0 <= a < |w| ==> w[a] <= i && SameGroup(keys[w[a]], keys[i])) &&
      (forall a, b :: 0 <= a < b < |w| ==> w[a] < w[b])
  {
    assert forall a :: 0 <= a < |g| ==> g[a] in g;
  }

  /** The window holds the latest rows of the group: a row of the group before `i` is left out
      only when the window is full, and then it is older than every row in it. */
  lemma WindowTakesLatest(keys: seq<Key>, i: nat, j: nat)
    requires i < |keys| && j < i && SameGroup(keys[j], keys[i]) && j !in Window(keys, i)
    ensures |Window(keys, i)| == 5 && j < Window(keys, i)[0]
  {
    var g := GroupBefore(keys, keys[i], i);
    var k := if |g| > 4 then |g| - 4 else 0;
    var w := Window(keys, i);
    assert w == g[k..] + [i];
    assert forall a :: k <= a < |g| ==> w[a - k] == g[a] && g[a] in w;
    assert j in g;
    var a :| 0 <= a < |g| && g[a] == j;
    assert a < k;
    assert w[0] == g[k];
  }

  /** The values of column `vs` in the window of row `i`. */
  function WindowValues(keys: seq<Key>, vs: seq<Num>, i: nat): (ws: seq<Num>)
    requires i < |keys| == |vs|
    ensures |ws| == |Window(keys, i)|
    ensures forall a :: 0 <= a < |ws| ==> ws[a] == vs[Window(keys, i)[a]]
  {
    var w := Window(keys, i);
    seq(|w|, a requires 0 <= a < |w| => vs[w[a]])
  }

  /** The values that are not missing, in order. */
  function Valid(vs: seq<Num>): (v: seq<Num>)
    ensures |v| <= |vs|
    ensures forall x :: x in v <==> x in vs && !x.NaN?
  {
    if vs == [] then []
    else Valid(vs[..|vs| - 1]) + (if vs[|vs| - 1].NaN? then [] else [vs[|vs| - 1]])
  }

  /** `rolling(..., min_periods=1).mean()` of one window: NaN when no value is present. */
  function Mean(vs: seq<Num>): (m: Num)
    ensures Valid(vs) == [] ==> m.NaN?
  {
    var v := Valid(vs);
    if v == [] then NaN else Div(Total(v), Fin(|v| as real))
  }

  /** A mean of values within [lo, hi] is within [lo, hi]. */
  lemma MeanWithin(vs: seq<Num>, lo: real, hi: real)
    requires forall k :: 0 <= k < |vs| ==> Within(vs[k], lo, hi)
    ensures Within(Mean(vs), lo, hi)
  {
    var v := Valid(vs);
    if v != [] {
      ValidInRange(vs, lo, hi);
      var n := |v| as real;
      TotalWithin(v, lo, hi, n);
      var t := Total(v).r;
      DivideBound(lo, hi, n, t);
      assert Mean(vs) == Fin(t / n);
    }
  }

  /** The present values of a column within [lo, hi] are finite and within [lo, hi]. */
  lemma ValidInRange(vs: seq<Num>, lo: real, hi: real)
    requires forall k :: 0 <= k < |vs| ==> Within(vs[k], lo, hi)
    ensures InRange(Valid(vs), lo, hi)
  {
    var v := Valid(vs);
    forall k | 0 <= k < |v| ensures v[k].Fin? && lo <= v[k].r <= hi {
      assert v[k] in vs;
    }
  }

  function SquaredDeviations(xs: seq<Num>, m: real): (s: real)
    requires forall k :: 0 <= k < |xs| ==> xs[k].Fin?
    ensures s >= 0.0
  {
    if xs == [] then 0.0
    else
      var d := xs[|xs| - 1].r - m;
      SquareNonneg(d);
      SquaredDeviations(xs[..|xs| - 1], m) + d * d
  }

  lemma SquareNonneg(d: real)
    ensures d * d >= 0.0
  {
  }

  predicate AllFinite(xs: seq<Num>)
  {
    forall k :: 0 <= k < |xs| ==> xs[k].Fin?
  }

  /** `rolling(..., min_periods=1).std()` of one window, kept as the sample variance: NaN with
      fewer than two present values or an infinite one, and never negative otherwise. */
  function Variance(vs: seq<Num>): (d: Num)
    ensures d.NaN? <==> |Valid(vs)| < 2 || !AllFinite(Valid(vs))
    ensures d.Fin? ==> d.r >= 0.0
  {
    var v := Valid(vs);
    if |v| < 2 || !AllFinite(v) then NaN else Fin(SampleVariance(v))
  }

  /** The sum of squared deviations from the mean over n - 1, for finite values. */
  function SampleVariance(v: seq<Num>): (s: real)
    requires |v| >= 2 && AllFinite(v)
    ensures s >= 0.0
  {
    var m := Total(v);
    assert m.Fin? by { TotalFinite(v); }
    var n := |v| as real;
    Spread(v, m.r / n, n)
  }

  /** The squared deviations of `v` from `mean`, over `n - 1`. */
  function Spread(v: seq<Num>, mean: real, n: real): (s: real)
    requires AllFinite(v) && n > 1.0
    ensures s >= 0.0
  {
    var d := SquaredDeviations(v, mean);
    DivNonneg(d, n - 1.0);
    d / (n - 1.0)
  }

  lemma {:induction false} TotalFinite(vs: seq<Num>)
    requires AllFinite(vs)
    ensures Total(vs).Fin?
  {
    if vs != [] {
      TotalFinite(vs[..|vs| - 1]);
      assert Total(vs) == Add(Total(vs[..|vs| - 1]), vs[|vs| - 1]);
    }
  }

  /** A window whose present values are all equal has variance 0. */
  lemma {:induction false} ConstantDeviations(xs: seq<Num>, c: real, n: real)
    requires forall k :: 0 <= k < |xs| ==> xs[k] == Fin(c)
    requires n == |xs| as real
    ensures SquaredDeviations(xs, c) == 0.0
    ensures Total(xs) == Fin(c * n)
  {
    if xs != [] {
      var init := xs[..|xs| - 1];
      var m := |init| as real;
      ConstantDeviations(init, c, m);
      assert Total(xs) == Add(Total(init), xs[|xs| - 1]);
      assert SquaredDeviations(xs, c) == SquaredDeviations(init, c) + (c - c) * (c - c);
      ScaleStep(c, m, n);
    }
  }

  lemma ScaleStep(c: real, m: real, n: real)
    requires n == m + 1.0
    ensures c * m + c == c * n
  {
  }

  lemma DivCancel(c: real, n: real)
    requires n > 0.0
    ensures c * n / n == c
  {
  }

  lemma ConstantVariance(vs: seq<Num>, c: real)
    requires forall k :: 0 <= k < |vs| ==> vs[k].NaN? || vs[k] == Fin(c)
    requires |Valid(vs)| >= 2
    ensures Variance(vs) == Fin(0.0)
  {
    var v := Valid(vs);
    var n := |v| as real;
    assert AllFinite(v) && Total(v).Fin? && c == Total(v).r / n && SquaredDeviations(v, c) == 0.0 by {
      ValidConstant(vs, c);
      ConstantDeviations(v, c, n);
      DivCancel(c, n);
    }
    VarianceUnfold(vs, n, c);
    SpreadZero(v, c, n);
  }

  lemma SpreadZero(v: seq<Num>, mean: real, n: real)
    requires AllFinite(v) && n > 1.0 && SquaredDeviations(v, mean) == 0.0
    ensures Spread(v, mean, n) == 0.0
  {
    ZeroDiv(n - 1.0);
  }

  lemma ZeroDiv(d: real)
    requires d > 0.0
    ensures 0.0 / d == 0.0
  {
  }

  lemma ValidConstant(vs: seq<Num>, c: real)
    requires forall k :: 0 <= k < |vs| ==> vs[k].NaN? || vs[k] == Fin(c)
    ensures forall k :: 0 <= k < |Valid(vs)| ==> Valid(vs)[k] == Fin(c)
  {
    var v := Valid(vs);
    forall k | 0 <= k < |v| ensures v[k] == Fin(c) {
      assert v[k] in vs;
    }
  }

  lemma VarianceUnfold(vs: seq<Num>, n: real, mean: real)
    requires |Valid(vs)| >= 2 && AllFinite(Valid(vs))
    requires n == |Valid(vs)| as real && Total(Valid(vs)).Fin? && mean == Total(Valid(vs)).r / n
    ensures Variance(vs) == Fin(Spread(Valid(vs), mean, n))
  {
  }

  function RollingMean(keys: seq<Key>, vs: seq<Num>): (ms: seq<Num>)
    requires |keys| == |vs|
    ensures |ms| == |vs| && forall i :: 0 <= i < |vs| ==> ms[i] == Mean(WindowValues(keys, vs, i))
  {
    seq(|vs|, i requires 0 <= i < |vs| => Mean(WindowValues(keys, vs, i)))
  }

  function RollingVariance(keys: seq<Key>, vs: seq<Num>): (ds: seq<Num>)
    requires |keys| == |vs|
    ensures |ds| == |vs| && forall i :: 0 <= i < |vs| ==> ds[i] == Variance(WindowValues(keys, vs, i))
  {
    seq(|vs|, i requires 0 <= i < |vs| => Variance(WindowValues(keys, vs, i)))
  }

  /** `groupby(...)[c].pct_change()` at row `i`, without the forward fill of missing values. */
  function PctChangeAt(keys: seq<Key>, vs: seq<Num>, i: nat): (p: Num)
    requires i < |keys| == |vs|
    ensures Previous(keys, i).None? ==> p.NaN?
    ensures Previous(keys, i).Some? && vs[i].Fin? && vs[Previous(keys, i).value].Fin? && vs[Previous(keys, i).value].r != 0.0
            ==> p == Fin(vs[i].r / vs[Previous(keys, i).value].r - 1.0)
  {
    match Previous(keys, i)
    case None => NaN
    case Some(j) => Sub(Div(vs[i], vs[j]), Fin(1.0))
  }

  /** `pct_change().fillna(0)`: never missing, and 0 at the first row of a group. */
  function PctChange(keys: seq<Key>, vs: seq<Num>): (ps: seq<Num>)
    requires |keys| == |vs|
    ensures |ps| == |vs|
    ensures forall i :: 0 <= i < |vs| ==> ps[i] == FillNaN(PctChangeAt(keys, vs, i), Fin(0.0)) && !ps[i].NaN?
    ensures forall i :: 0 <= i < |vs| && Previous(keys, i).None? ==> ps[i] == Fin(0.0)
  {
    FillColumn(seq(|vs|, i requires 0 <= i < |vs| => PctChangeAt(keys, vs, i)), Fin(0.0))
  }

  /** Rows of other groups never contribute: the window of `i` reads only rows of its group. */
  lemma {:induction false} GroupIsolation(keys: seq<Key>, vs: seq<Num>, us: seq<Num>, i: nat)
    requires i < |keys| == |vs| == |us|
    requires forall j :: 0 <= j <= i && SameGroup(keys[j], keys[i]) ==> vs[j] == us[j]
    ensures RollingMean(keys, vs)[i] == RollingMean(keys, us)[i]
    ensures RollingVariance(keys, vs)[i] == RollingVariance(keys, us)[i]
    ensures GroupDiff(keys, vs)[i] == GroupDiff(keys, us)[i]
    ensures PctChange(keys, vs)[i] == PctChange(keys, us)[i]
  {
    assert WindowValues(keys, vs, i) == WindowValues(keys, us, i);
  }

  /** Rolling means of a column whose values all lie in [lo, hi] lie in [lo, hi]. */
  lemma RollingMeanWithin(keys: seq<Key>, vs: seq<Num>, lo: real, hi: real)
    requires |keys| == |vs|
    requires forall i :: 0 <= i < |vs| ==> Within(vs[i], lo, hi)
    ensures forall i :: 0 <= i < |vs| ==> Within(RollingMean(keys, vs)[i], lo, hi)
  {
    forall i | 0 <= i < |vs| ensures Within(RollingMean(keys, vs)[i], lo, hi) {
      MeanWithin(WindowValues(keys, vs, i), lo, hi);
    }
  }

  const Metrics := [MemoryUsagePct, CpuUsagePct, DiskUsagePct, NetworkTotal]

  function MeanName(m: string): string { m + "_rolling_mean_5" }
  function StdName(m: string): string { m + "_rolling_std_5" }
  function DiffName(m: string): string { m + "_diff" }
  function PctName(m: string): string { m + "_pct_change" }

  function StatNames(m: string): set<string>
  {
    {MeanName(m), StdName(m), DiffName(m), PctName(m)}
  }

  /** The four statistics of metric `m`, computed from the keys and column `m` of `s`. */
  ghost predicate StatsOf(s: Frame, r: Frame, m: string)
  {
    Has(r, MeanName(m)) && Has(r, StdName(m)) && Has(r, DiffName(m)) && Has(r, PctName(m))
    && Column(r, MeanName(m)) == RollingMean(Keys(s), Column(s, m))
    && Column(r, StdName(m)) == RollingVariance(Keys(s), Column(s, m))
    && Column(r, DiffName(m)) == GroupDiff(Keys(s), Column(s, m))
    && Column(r, PctName(m)) == PctChange(Keys(s), Column(s, m))
  }

  /** One turn of the loop over the metrics. */
  method AddMetricStats(df: Frame, m: string) returns (r: Frame)
    ensures Agree(df, r, StatNames(m))
    ensures Has(df, m) ==> StatsOf(df, r, m)
    ensures !Has(df, m) ==> r == df
  {
    r := df;
    if Has(df, m) {
      var keys := Keys(df);
      var vs := Column(df, m);
      var r1 := SetNumbers(df, MeanName(m), RollingMean(keys, vs));
      var r2 := SetNumbers(r1, StdName(m), RollingVariance(keys, vs));
      var r3 := SetNumbers(r2, DiffName(m), GroupDiff(keys, vs));
      r := SetNumbers(r3, PctName(m), PctChange(keys, vs));
      StatNamesDistinct(m);
      AgreeTrans(df, r1, r2, {MeanName(m)}, {StdName(m)});
      AgreeTrans(df, r2, r3, {MeanName(m), StdName(m)}, {DiffName(m)});
      AgreeTrans(df, r3, r, {MeanName(m), StdName(m), DiffName(m)}, {PctName(m)});
      assert Column(r, MeanName(m)) == Column(r1, MeanName(m));
      assert Column(r, StdName(m)) == Column(r2, StdName(m));
      assert Column(r, DiffName(m)) == Column(r3, DiffName(m));
    }
  }

  /** The four statistics names of a metric differ from each other and from the metric:
      their suffixes have four different lengths. */
  lemma StatNamesDistinct(m: string)
    ensures MeanName(m) != StdName(m) && MeanName(m) != DiffName(m) && MeanName(m) != PctName(m)
    ensures StdName(m) != DiffName(m) && StdName(m) != PctName(m) && DiffName(m) != PctName(m)
  {
    assert |MeanName(m)| == |m| + 15 && |StdName(m)| == |m| + 14;
    assert |DiffName(m)| == |m| + 5 && |PctName(m)| == |m| + 11;
  }

  function StatColumns(ms: seq<string>): set<string>
  {
    if ms == [] then {} else StatColumns(ms[..|ms| - 1]) + StatNames(ms[|ms| - 1])
  }

  lemma {:induction false} MetricOutside(k: nat, j: nat)
    requires k <= |Metrics| && j < |Metrics|
    ensures Metrics[j] !in StatColumns(Metrics[..k])
  {
    if k > 0 {
      assert Metrics[..k][..k - 1] == Metrics[..k - 1];
      MetricOutside(k - 1, j);
      NamesApart(j, k - 1);
    }
  }

  lemma StatNamesStart(m: string)
    requires |m| > 0
    ensures forall x :: x in StatNames(m) ==> |x| >= |m| + 5 && x[0] == m[0]
  {
    assert MeanName(m)[0] == m[0] && StdName(m)[0] == m[0] && DiffName(m)[0] == m[0] && PctName(m)[0] == m[0];
  }

  /** No metric is a statistic column, and the statistic columns of two metrics differ. */
  lemma NamesApart(j: nat, k: nat)
    requires j < |Metrics| && k < |Metrics|
    ensures Metrics[j] !in StatNames(Metrics[k])
    ensures j != k ==> StatNames(Metrics[j]) !! StatNames(Metrics[k])
  {
    MetricLength(j);
    MetricLength(k);
    ShorterApart(Metrics[j], Metrics[k]);
    if j != k {
      MetricInitials(j);
      MetricInitials(k);
      InitialsApart(Metrics[j], Metrics[k]);
    }
  }

  lemma ShorterApart(a: string, b: string)
    requires 0 < |a| < |b| + 5
    requires |b| > 0
    ensures a !in StatNames(b)
  {
    StatNamesStart(b);
  }

  lemma InitialsApart(a: string, b: string)
    requires |a| > 0 && |b| > 0 && a[0] != b[0]
    ensures StatNames(a) !! StatNames(b)
  {
    StatNamesStart(a);
    StatNamesStart(b);
    forall x, y | x in StatNames(a) && y in StatNames(b) ensures x != y {
      assert x[0] == a[0] && y[0] == b[0];
    }
  }

  /** The four metric names begin with four different letters. */
  lemma MetricInitials(j: nat)
    requires j < |Metrics|
    ensures |Metrics[j]| > 0 && Metrics[j][0] == "mcdn"[j]
  {
    assert Metrics[0][0] == 'm' && Metrics[1][0] == 'c' && Metrics[2][0] == 'd' && Metrics[3][0] == 'n';
  }

  /** A statistics column name is at least five characters longer than its metric. */
  lemma {:induction false} StatColumnsLong(ms: seq<string>, n: nat)
    requires forall k :: 0 <= k < |ms| ==> |ms[k]| >= n > 0
    ensures forall x :: x in StatColumns(ms) ==> |x| >= n + 5
  {
    if ms != [] {
      var init := ms[..|ms| - 1];
      assert forall k :: 0 <= k < |init| ==> init[k] == ms[k];
      StatColumnsLong(init, n);
      StatNamesStart(ms[|ms| - 1]);
    }
  }

  /** A name shorter than 22 characters is not a statistics column. */
  lemma ShortNotStat(c: string)
    requires |c| < 22
    ensures c !in StatColumns(Metrics)
  {
    forall k | 0 <= k < |Metrics| ensures |Metrics[k]| >= 17 {
      MetricLength(k);
    }
    StatColumnsLong(Metrics, 17);
  }

  lemma MetricLength(j: nat)
    requires j < |Metrics|
    ensures 17 <= |Metrics[j]| <= 20
  {
    assert |Metrics[0]| == 20 && |Metrics[1]| == 17 && |Metrics[2]| == 18 && |Metrics[3]| == 19;
  }

  /** No statistics column of a metric absent from `s` is added or dropped in `r`. */
  ghost predicate AbsentStatsKept(s: Frame, r: Frame)
  {
    forall j, c :: 0 <= j < |Metrics| && !Has(s, Metrics[j]) && c in StatNames(Metrics[j]) ==> (Has(r, c) <==> Has(s, c))
  }

  /** A turn for a present metric writes no statistics column of an absent one. */
  lemma AbsentStatsStep(s: Frame, r: Frame, r': Frame, k: nat)
    requires k < |Metrics| && Has(s, Metrics[k]) && AbsentStatsKept(s, r)
    requires Agree(r, r', StatNames(Metrics[k]))
    ensures AbsentStatsKept(s, r')
  {
    forall j, c | 0 <= j < |Metrics| && !Has(s, Metrics[j]) && c in StatNames(Metrics[j])
      ensures Has(r', c) <==> Has(r, c)
    {
      NamesApart(j, k);
    }
  }

  /** `_add_statistical_features`: sort, then for each usage metric present, add its rolling
      mean and deviation, diff and percent change, all per (pod, container) group. The
      statistics columns of an absent metric are neither added nor dropped. */
  method AddStatisticalFeatures(df: Frame) returns (r: Frame)
    ensures Agree(SortByGroupTime(df), r, StatColumns(Metrics))
    ensures forall k :: 0 <= k < |Metrics| && Has(df, Metrics[k]) ==> StatsOf(SortByGroupTime(df), r, Metrics[k])
    ensures forall k, c :: 0 <= k < |Metrics| && !Has(df, Metrics[k]) && c in StatNames(Metrics[k]) ==> (Has(r, c) <==> Has(df, c))
  {
    var s := SortByGroupTime(df);
    r := MetricLoop(s);
    assert forall k :: 0 <= k < |Metrics| ==> (Has(df, Metrics[k]) <==> Has(s, Metrics[k]));
  }

  /** The loop over the metrics, on the sorted frame `s`. */
  method MetricLoop(s: Frame) returns (r: Frame)
    ensures Agree(s, r, StatColumns(Metrics))
    ensures forall k :: 0 <= k < |Metrics| && Has(s, Metrics[k]) ==> StatsOf(s, r, Metrics[k])
    ensures AbsentStatsKept(s, r)
  {
    r := s;
    for k := 0 to |Metrics|
      invariant Agree(s, r, StatColumns(Metrics[..k]))
      invariant forall j :: 0 <= j < k && Has(s, Metrics[j]) ==> StatsOf(s, r, Metrics[j])
      invariant AbsentStatsKept(s, r)
    {
      r := MetricTurn(s, r, k);
    }
    assert Metrics[..|Metrics|] == Metrics;
  }

  method MetricTurn(s: Frame, r: Frame, k: nat) returns (r': Frame)
    requires k < |Metrics|
    requires Agree(s, r, StatColumns(Metrics[..k]))
    requires forall j :: 0 <= j < k && Has(s, Metrics[j]) ==> StatsOf(s, r, Metrics[j])
    requires AbsentStatsKept(s, r)
    ensures Agree(s, r', StatColumns(Metrics[..k + 1]))
    ensures forall j :: 0 <= j < k + 1 && Has(s, Metrics[j]) ==> StatsOf(s, r', Metrics[j])
    ensures AbsentStatsKept(s, r')
  {
    var m := Metrics[k];
    forall j | 0 <= j < k ensures StatNames(Metrics[j]) !! StatNames(m) {
      NamesApart(j, k);
    }
    MetricOutside(k, k);
    assert Has(r, m) == Has(s, m) && Column(r, m) == Column(s, m);
    r' := AddMetricStats(r, m);
    if Has(s, m) {
      AbsentStatsStep(s, r, r', k);
    }
    assert Metrics[..k + 1][..k] == Metrics[..k];
    AgreeTrans(s, r, r', StatColumns(Metrics[..k]), StatNames(m));
  }
}
