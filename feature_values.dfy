// What `create_ml_features` keeps of the pivoted frame through the stages after the pivot:
// every cell of a column no stage writes, the usage percentages and base ratios computed
// from the pivoted row with the same key, and the rolling statistics of the frame's own
// metric columns. The facts are row-local, so they survive the sort by (pod, container, time).
module FeatureValues {
  import opened Numbers
  import opened Frames
  import opened PromQueries
  import opened DerivedFeatures
  import opened LabFeatures
  import opened DerivedStage
  import opened Temporal
  import opened Statistics
  import opened Labels

  /** The columns the stages after the derived features write. */
  const LaterColumns := TemporalColumns + StatColumns(Metrics) + LabelColumns

  /** Every column some stage after the pivot writes, in either copy. */
  const WrittenColumns := LabDerivedColumns + LaterColumns

  /** The percentage and ratio rules of the derived stage, which both copies run. */
  const KeptRules := UtilisationRules + BaseRatioRules

  /** Row `x` carries row `j` of `base`: the same cell on every column no stage writes, and
      under each kept rule's guard that rule's formula of row `j`. */
  ghost predicate RowOf(base: Frame, x: Row, j: nat)
    requires j < |base.rows|
  {
    base.rows[j].key == x.key
    && (forall c :: c !in WrittenColumns ==> NumAt(x, c) == NumAt(base.rows[j], c))
    && (forall k :: 0 <= k < |KeptRules| && HasAll(base, KeptRules[k].guard) ==>
          NumAt(x, KeptRules[k].target) == KeptRules[k].g(base.rows[j]))
  }

  ghost predicate FromBase(base: Frame, x: Row)
  {
    exists j :: 0 <= j < |base.rows| && RowOf(base, x, j)
  }

  /** What `r` keeps of the pivoted frame `base`: the columns no stage writes, a target
      column for every kept rule whose guard columns `base` has, and every row carrying the
      row of `base` with its key. */
  ghost predicate KeepsBase(base: Frame, r: Frame)
  {
    (forall c :: c !in WrittenColumns ==> (Has(r, c) <==> Has(base, c)))
    && (forall k :: 0 <= k < |KeptRules| && HasAll(base, KeptRules[k].guard) ==> Has(r, KeptRules[k].target))
    && (forall i :: 0 <= i < |r.rows| ==> FromBase(base, r.rows[i]))
  }

  /** Each metric present has its four rolling statistics, computed over the rows of `r`
      in their order from the metric column of `r`. */
  ghost predicate OwnStats(r: Frame)
  {
    forall k :: 0 <= k < |Metrics| && Has(r, Metrics[k]) ==> StatsOf(r, r, Metrics[k])
  }

  // ---- the kept rules ----------------------------------------------------------

  lemma KeptRulesAt()
    ensures |KeptRules| == 9
    ensures forall k :: 0 <= k < 3 ==> KeptRules[k] == UtilisationRules[k]
    ensures forall k :: 3 <= k < 9 ==> KeptRules[k] == BaseRatioRules[k - 3]
  {
  }

  /** No stage after the derived features writes a percentage or ratio column. */
  lemma TargetOutside(k: nat)
    requires k < |KeptRules|
    ensures KeptRules[k].target !in LaterColumns
  {
    KeptRulesAt();
    UtilisationRulesAt();
    BaseRatioRulesAt();
    ShortNotStat(KeptRules[k].target);
  }

  lemma KeptDerivedAs(base: Frame, d: Frame, k: nat)
    requires k < |KeptRules| && PercentagesDerived(base, d) && RatiosDerived(base, d)
    ensures DerivedAs(base, d, KeptRules[k].guard, KeptRules[k].target, KeptRules[k].g)
  {
    KeptRulesAt();
    UtilisationRulesAt();
    BaseRatioRulesAt();
  }

  // ---- one stage at a time -------------------------------------------------------

  /** The derived stage keeps the pivoted cells it does not write, and computes its
      percentages and ratios from the pivoted row. */
  lemma KeepsBaseAfterDerived(base: Frame, d: Frame, copy: Copy)
    requires Agree(base, d, DerivedColumns(copy))
    requires PercentagesDerived(base, d) && RatiosDerived(base, d)
    ensures KeepsBase(base, d)
  {
    assert DerivedColumns(copy) <= WrittenColumns;
    forall k | 0 <= k < |KeptRules| ensures DerivedAs(base, d, KeptRules[k].guard, KeptRules[k].target, KeptRules[k].g) {
      KeptDerivedAs(base, d, k);
    }
    forall i | 0 <= i < |d.rows| ensures FromBase(base, d.rows[i]) {
      DerivedRow(base, d, copy, i);
    }
  }

  lemma DerivedRow(base: Frame, d: Frame, copy: Copy, i: nat)
    requires Agree(base, d, DerivedColumns(copy)) && DerivedColumns(copy) <= WrittenColumns && i < |d.rows|
    requires forall k :: 0 <= k < |KeptRules| ==> DerivedAs(base, d, KeptRules[k].guard, KeptRules[k].target, KeptRules[k].g)
    ensures RowOf(base, d.rows[i], i)
  {
    assert Keys(base)[i] == Keys(d)[i];
    forall c | c !in WrittenColumns ensures NumAt(d.rows[i], c) == NumAt(base.rows[i], c) {
      assert Column(d, c)[i] == Column(base, c)[i];
    }
    forall k | 0 <= k < |KeptRules| && HasAll(base, KeptRules[k].guard)
      ensures NumAt(d.rows[i], KeptRules[k].target) == KeptRules[k].g(base.rows[i])
    {
      assert Column(d, KeptRules[k].target)[i] == Map(base, KeptRules[k].g)[i];
    }
  }

  /** A later stage, writing only columns of `t`, keeps what the frame keeps of `base`. */
  lemma KeepsBaseAgree(base: Frame, f: Frame, h: Frame, t: set<string>)
    requires KeepsBase(base, f) && Agree(f, h, t) && t <= LaterColumns
    ensures KeepsBase(base, h)
  {
    forall k | 0 <= k < |KeptRules| ensures KeptRules[k].target !in t {
      TargetOutside(k);
    }
    forall i | 0 <= i < |h.rows| ensures FromBase(base, h.rows[i]) {
      var j :| 0 <= j < |base.rows| && RowOf(base, f.rows[i], j);
      AgreeRow(base, f, h, t, i, j);
    }
  }

  lemma AgreeRow(base: Frame, f: Frame, h: Frame, t: set<string>, i: nat, j: nat)
    requires Agree(f, h, t) && t <= LaterColumns && i < |f.rows| && j < |base.rows| && RowOf(base, f.rows[i], j)
    requires forall k :: 0 <= k < |KeptRules| ==> KeptRules[k].target !in t
    ensures RowOf(base, h.rows[i], j)
  {
    assert Keys(f)[i] == Keys(h)[i];
    forall c | c !in t ensures NumAt(h.rows[i], c) == NumAt(f.rows[i], c) {
      assert Column(h, c)[i] == Column(f, c)[i];
    }
  }

  /** A row of a permutation of `a` sits somewhere in `a`. */
  lemma RowSource(a: seq<Row>, b: seq<Row>, i: nat) returns (j: nat)
    requires multiset(a) == multiset(b) && i < |b|
    ensures j < |a| && a[j] == b[i]
  {
    assert b[i] in multiset(a);
    j :| 0 <= j < |a| && a[j] == b[i];
  }

  /** The sort keeps what the frame keeps of `base`. */
  lemma KeepsBasePermuted(base: Frame, f: Frame, h: Frame)
    requires KeepsBase(base, f) && multiset(f.rows) == multiset(h.rows) && h.columns == f.columns
    ensures KeepsBase(base, h)
  {
    forall i | 0 <= i < |h.rows| ensures FromBase(base, h.rows[i]) {
      var j := RowSource(f.rows, h.rows, i);
      assert FromBase(base, f.rows[j]);
    }
  }

  /** The statistics computed over the sorted frame `s` are the statistics of the labelled
      frame's own metric columns, since the labels write neither. */
  lemma OwnStatsAfterLabels(s: Frame, st: Frame, r: Frame)
    requires Agree(s, st, StatColumns(Metrics)) && Agree(st, r, LabelColumns)
    requires forall k :: 0 <= k < |Metrics| && Has(s, Metrics[k]) ==> StatsOf(s, st, Metrics[k])
    ensures OwnStats(r)
  {
    forall k | 0 <= k < |Metrics| && Has(r, Metrics[k]) ensures StatsOf(r, r, Metrics[k]) {
      var m := Metrics[k];
      MetricOutside(|Metrics|, k);
      assert Metrics[..|Metrics|] == Metrics;
      MetricNotLabel(k);
      MetricLength(k);
      StatNamesNotLabels(m);
      assert Column(r, m) == Column(st, m) == Column(s, m);
    }
  }

  lemma MetricNotLabel(k: nat)
    requires k < |Metrics|
    ensures Metrics[k] !in LabelColumns
  {
    assert Metrics == [MemoryUsagePct, CpuUsagePct, DiskUsagePct, NetworkTotal];
  }

  /** Label columns are at most 17 characters long. */
  lemma ShortNotLabel(c: string)
    requires |c| > 17
    ensures c !in LabelColumns
  {
  }

  lemma StatNamesNotLabels(m: string)
    requires |m| >= 17
    ensures forall c :: c in StatNames(m) ==> c !in LabelColumns
  {
    StatNamesStart(m);
    forall c | c in StatNames(m) ensures c !in LabelColumns {
      ShortNotLabel(c);
    }
  }
}
