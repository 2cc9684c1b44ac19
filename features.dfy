// The whole derived-feature stage (`_calculate_derived_features`) of both copies of the pipeline.
module DerivedStage {
  import opened Wrappers
  import opened Numbers
  import opened Frames
  import opened PromQueries
  import opened DerivedFeatures
  import opened LabFeatures

  const ColetaDerivedColumns := UtilisationColumns + BaseRatioColumns
  const LabDerivedColumns := ColetaDerivedColumns + DegradationColumns + LifecycleColumns
                             + PressureColumns + ScoreColumns

  function DerivedColumns(copy: Copy): set<string>
  {
    if copy == Lab then LabDerivedColumns else ColetaDerivedColumns
  }

  /** The instability pair counts the 0/1 stability factors of each row:
      `instability_score` is the number of factors equal to 1, `is_unstable` is 1 iff one of
      them is, and both exist iff some factor exists. */
  ghost predicate InstabilityCounted(r: Frame)
  {
    var fs := PresentOf(r, StabilityFactors);
    (Has(r, InstabilityScore) <==> fs != []) && (Has(r, IsUnstable) <==> fs != [])
    && (fs != [] ==> forall i :: 0 <= i < |r.rows| ==>
          NumAt(r.rows[i], InstabilityScore) == Fin(CountOnes(r.rows[i], fs) as real)
          && (NumAt(r.rows[i], IsUnstable) == Fin(1.0) <==> exists k :: 0 <= k < |fs| && NumAt(r.rows[i], fs[k]) == Fin(1.0)))
  }

  lemma FlagColumnKept(f: Frame, g: Frame, t: set<string>, c: string)
    requires Agree(f, g, t) && c !in t && FlagColumn(f, c)
    ensures FlagColumn(g, c)
  {
    assert |Keys(f)| == |Keys(g)|;
    forall i | 0 <= i < |g.rows| ensures IsFlag(NumAt(g.rows[i], c)) {
      assert Column(f, c)[i] == Column(g, c)[i];
    }
  }

  lemma PresentOfSame(f: Frame, g: Frame, cs: seq<string>)
    requires forall k :: 0 <= k < |cs| ==> (Has(f, cs[k]) <==> Has(g, cs[k]))
    ensures PresentOf(f, cs) == PresentOf(g, cs)
  {
    if cs != [] {
      PresentOfSame(f, g, cs[1..]);
    }
  }

  /** The stability factors do not change from `mid` to `r`, and each is a 0/1 column. */
  lemma Counted(mid: Frame, r: Frame)
    requires Agree(mid, r, ScoreColumns)
    requires forall c :: c in StabilityFactors && Has(mid, c) ==> FlagColumn(mid, c)
    requires !Has(mid, InstabilityScore) && !Has(mid, IsUnstable)
    requires ScoredAs(mid, r, InstabilityScore, IsUnstable, PresentOf(mid, StabilityFactors),
                      StabilitySums(mid, PresentOf(mid, StabilityFactors)))
    ensures InstabilityCounted(r)
  {
    var fs := PresentOf(mid, StabilityFactors);
    assert forall c :: c in StabilityFactors ==> c !in ScoreColumns;
    PresentOfSame(mid, r, StabilityFactors);
    assert |Keys(mid)| == |Keys(r)|;
    if fs != [] {
      forall i | 0 <= i < |r.rows|
        ensures NumAt(r.rows[i], InstabilityScore) == Fin(CountOnes(r.rows[i], fs) as real)
        ensures NumAt(r.rows[i], IsUnstable) == Fin(1.0) <==> exists k :: 0 <= k < |fs| && NumAt(r.rows[i], fs[k]) == Fin(1.0)
      {
        assert Values(r.rows[i], fs) == Values(mid.rows[i], fs) by {
          forall k | 0 <= k < |fs| ensures At(r.rows[i], fs[k]) == At(mid.rows[i], fs[k]) {
            assert Column(r, fs[k])[i] == Column(mid, fs[k])[i];
          }
        }
        forall k | 0 <= k < |fs| ensures IsFlag(At(mid.rows[i], fs[k])) {
          assert fs[k] in fs;
        }
        SumOfFlags(mid.rows[i], fs);
        assert Column(r, InstabilityScore)[i] == NumAt(r.rows[i], InstabilityScore);
        assert Column(r, IsUnstable)[i] == NumAt(r.rows[i], IsUnstable);
        assert forall k :: 0 <= k < |fs| ==> NumAt(r.rows[i], fs[k]) == At(mid.rows[i], fs[k]);
      }
    }
  }

  // The lab blocks seen through the two facts the instability count needs: what they
  // change, and that the flags they create are 0/1 columns.

  method DegradationStep(df: Frame) returns (r: Frame)
    ensures Agree(df, r, DegradationColumns)
  {
    r := Degradation(df);
  }

  method LifecycleStep(df: Frame, now: real) returns (r: Frame)
    ensures Agree(df, r, LifecycleColumns)
    ensures forall c :: c in {HasOomKills, HasRestarts} && !Has(df, c) && Has(r, c) ==> FlagColumn(r, c)
  {
    r := Lifecycle(df, now);
  }

  method PressureStep(df: Frame) returns (r: Frame)
    ensures Agree(df, r, PressureColumns)
    ensures forall c :: c in {MemoryPressure, CpuSaturated} && !Has(df, c) && Has(r, c) ==> FlagColumn(r, c)
  {
    r := Pressure(df);
  }

  method ScoresStep(df: Frame) returns (r: Frame)
    ensures Agree(df, r, ScoreColumns)
    ensures ScoredAs(df, r, InstabilityScore, IsUnstable, PresentOf(df, StabilityFactors),
                     StabilitySums(df, PresentOf(df, StabilityFactors)))
  {
    r := Scores(df);
  }

  /** No stability factor and no instability column is there before the lab blocks. */
  predicate FreshFactors(df: Frame)
  {
    !Has(df, HasRestarts) && !Has(df, HasOomKills) && !Has(df, MemoryPressure) && !Has(df, CpuSaturated)
    && !Has(df, InstabilityScore) && !Has(df, IsUnstable)
  }

  lemma FactorsOutsideStages()
    ensures HasRestarts !in DegradationColumns && HasOomKills !in DegradationColumns
    ensures HasRestarts !in PressureColumns && HasOomKills !in PressureColumns
    ensures InstabilityScore !in DegradationColumns + LifecycleColumns + PressureColumns
    ensures IsUnstable !in DegradationColumns + LifecycleColumns + PressureColumns
  {
  }

  /** The blocks that only the lab copy runs, after the percentage and ratio blocks. */
  method LabStages(df: Frame, now: real) returns (r: Frame)
    ensures Agree(df, r, DegradationColumns + LifecycleColumns + PressureColumns + ScoreColumns)
    ensures FreshFactors(df) ==> InstabilityCounted(r)
  {
    var r3 := DegradationStep(df);
    var r4 := LifecycleStep(r3, now);
    var r5 := PressureStep(r4);
    r := ScoresStep(r5);
    AgreeTrans(df, r3, r4, DegradationColumns, LifecycleColumns);
    AgreeTrans(df, r4, r5, DegradationColumns + LifecycleColumns, PressureColumns);
    AgreeTrans(df, r5, r, DegradationColumns + LifecycleColumns + PressureColumns, ScoreColumns);
    if FreshFactors(df) {
      FactorsFlagged(df, r3, r4, r5);
      Counted(r5, r);
    }
  }

  lemma FactorsFlagged(df: Frame, r3: Frame, r4: Frame, r5: Frame)
    requires FreshFactors(df) && Agree(df, r3, DegradationColumns)
    requires Agree(r3, r4, LifecycleColumns) && Agree(r4, r5, PressureColumns)
    requires forall c :: c in {HasOomKills, HasRestarts} && !Has(r3, c) && Has(r4, c) ==> FlagColumn(r4, c)
    requires forall c :: c in {MemoryPressure, CpuSaturated} && !Has(r4, c) && Has(r5, c) ==> FlagColumn(r5, c)
    ensures forall c :: c in StabilityFactors && Has(r5, c) ==> FlagColumn(r5, c)
    ensures !Has(r5, InstabilityScore) && !Has(r5, IsUnstable)
  {
    FactorsOutsideStages();
    forall c | c in StabilityFactors && Has(r5, c) ensures FlagColumn(r5, c) {
      if c == HasRestarts || c == HasOomKills {
        assert !Has(r3, c);
        FlagColumnKept(r4, r5, PressureColumns, c);
      }
    }
  }

  /** Every value of column `c` lies within [lo, hi] or is missing. */
  ghost predicate ColumnWithin(f: Frame, c: string, lo: real, hi: real)
  {
    forall i :: 0 <= i < |f.rows| ==> Within(NumAt(f.rows[i], c), lo, hi)
  }

  /** The percentage block's promise about `r`, computed from `df`: each percentage is derived
      by its formula when its inputs are present, and a new one respects its clip bounds. */
  ghost predicate PercentagesDerived(df: Frame, r: Frame)
  {
    DerivedAs(df, r, MemoryGuard, MemoryUsagePct, MemoryUsagePercent)
    && DerivedAs(df, r, CpuGuard, CpuUsagePct, CpuUsagePercent)
    && DerivedAs(df, r, DiskGuard, DiskUsagePct, DiskUsagePercent)
    && (!Has(df, MemoryUsagePct) && Has(r, MemoryUsagePct) ==> ColumnWithin(r, MemoryUsagePct, 0.0, 100.0))
    && (!Has(df, DiskUsagePct) && Has(r, DiskUsagePct) ==> ColumnWithin(r, DiskUsagePct, 0.0, 100.0))
    && (!Has(df, CpuUsagePct) && Has(r, CpuUsagePct) ==> ColumnWithin(r, CpuUsagePct, 0.0, 200.0))
  }

  /** The ratio block's promise about `r`, computed from `df`: each ratio is derived under its
      guard. */
  ghost predicate RatiosDerived(df: Frame, r: Frame)
  {
    DerivedAs(df, r, ThrottleGuard, "cpu_throttling_rate", ThrottlingRate)
    && DerivedAs(df, r, RssGuard, "memory_rss_percent", RssShare)
    && DerivedAs(df, r, RssGuard, "memory_cache_percent", CacheShare)
    && DerivedAs(df, r, NetworkGuard, NetworkTotal, NetworkTotalBytes)
    && DerivedAs(df, r, DiskIoGuard, "disk_io_total", DiskIoTotal)
    && DerivedAs(df, r, ThreadsGuard, "threads_per_process", ThreadsPerProcess)
  }

  lemma PercentagesFromBlock(df: Frame, r: Frame)
    requires DerivedAs(df, r, MemoryGuard, MemoryUsagePct, MemoryUsagePercent)
    requires DerivedAs(df, r, CpuGuard, CpuUsagePct, CpuUsagePercent)
    requires DerivedAs(df, r, DiskGuard, DiskUsagePct, DiskUsagePercent)
    requires forall c, i :: c in {MemoryUsagePct, DiskUsagePct} && !Has(df, c) && Has(r, c) && 0 <= i < |r.rows|
               ==> Within(NumAt(r.rows[i], c), 0.0, 100.0)
    requires !Has(df, CpuUsagePct) && Has(r, CpuUsagePct) ==> forall i :: 0 <= i < |r.rows| ==> Within(NumAt(r.rows[i], CpuUsagePct), 0.0, 200.0)
    ensures PercentagesDerived(df, r)
  {
  }

  lemma WithinKept(mid: Frame, r: Frame, t: set<string>, c: string, lo: real, hi: real)
    requires Agree(mid, r, t) && c !in t && ColumnWithin(mid, c, lo, hi)
    ensures ColumnWithin(r, c, lo, hi)
  {
    assert |Keys(mid)| == |Keys(r)|;
    forall i | 0 <= i < |r.rows| ensures Within(NumAt(r.rows[i], c), lo, hi) {
      assert Column(mid, c)[i] == Column(r, c)[i];
    }
  }

  /** A later step that writes no percentage column keeps what the percentage block derived. */
  lemma PercentagesKept(df: Frame, mid: Frame, r: Frame, t: set<string>)
    requires PercentagesDerived(df, mid) && Agree(mid, r, t) && UtilisationColumns !! t
    ensures PercentagesDerived(df, r)
  {
    assert MemoryUsagePct in UtilisationColumns && CpuUsagePct in UtilisationColumns && DiskUsagePct in UtilisationColumns;
    DerivedKept(df, mid, r, MemoryGuard, MemoryUsagePct, MemoryUsagePercent, t);
    DerivedKept(df, mid, r, CpuGuard, CpuUsagePct, CpuUsagePercent, t);
    DerivedKept(df, mid, r, DiskGuard, DiskUsagePct, DiskUsagePercent, t);
    if !Has(df, MemoryUsagePct) && Has(r, MemoryUsagePct) {
      WithinKept(mid, r, t, MemoryUsagePct, 0.0, 100.0);
    }
    if !Has(df, DiskUsagePct) && Has(r, DiskUsagePct) {
      WithinKept(mid, r, t, DiskUsagePct, 0.0, 100.0);
    }
    if !Has(df, CpuUsagePct) && Has(r, CpuUsagePct) {
      WithinKept(mid, r, t, CpuUsagePct, 0.0, 200.0);
    }
  }

  /** A later step that writes no ratio column keeps what the ratio block derived. */
  lemma RatiosKept(df: Frame, mid: Frame, r: Frame, t: set<string>)
    requires RatiosDerived(df, mid) && Agree(mid, r, t) && BaseRatioColumns !! t
    ensures RatiosDerived(df, r)
  {
    assert "cpu_throttling_rate" in BaseRatioColumns && "memory_rss_percent" in BaseRatioColumns;
    assert "memory_cache_percent" in BaseRatioColumns && NetworkTotal in BaseRatioColumns;
    assert "disk_io_total" in BaseRatioColumns && "threads_per_process" in BaseRatioColumns;
    DerivedKept(df, mid, r, ThrottleGuard, "cpu_throttling_rate", ThrottlingRate, t);
    DerivedKept(df, mid, r, RssGuard, "memory_rss_percent", RssShare, t);
    DerivedKept(df, mid, r, RssGuard, "memory_cache_percent", CacheShare, t);
    DerivedKept(df, mid, r, NetworkGuard, NetworkTotal, NetworkTotalBytes, t);
    DerivedKept(df, mid, r, DiskIoGuard, "disk_io_total", DiskIoTotal, t);
    DerivedKept(df, mid, r, ThreadsGuard, "threads_per_process", ThreadsPerProcess, t);
  }

  lemma PercentsNotRatios()
    ensures UtilisationColumns !! BaseRatioColumns
  {
  }

  /** The columns the lab copy's later stages write. */
  const LabStageColumns := DegradationColumns + LifecycleColumns + PressureColumns + ScoreColumns

  /** The later lab stages write neither a percentage nor a ratio column. */
  lemma LabStagesApart()
    ensures ColetaDerivedColumns !! LabStageColumns
  {
    DegradationApart();
    LifecycleApart();
    PressureApart();
    ScoresApart();
  }

  lemma DegradationApart()
    ensures ColetaDerivedColumns !! DegradationColumns
  {
  }

  lemma LifecycleApart()
    ensures ColetaDerivedColumns !! LifecycleColumns
  {
  }

  lemma PressureApart()
    ensures ColetaDerivedColumns !! PressureColumns
  {
  }

  lemma ScoresApart()
    ensures ColetaDerivedColumns !! ScoreColumns
  {
  }

  /** The lab copy's later stages, after the percentage and ratio blocks: they keep what those
      blocks derived. */
  method LabAfterColeta(df: Frame, f: Frame, now: real) returns (g: Frame)
    requires Agree(df, f, ColetaDerivedColumns)
    requires PercentagesDerived(df, f) && RatiosDerived(df, f)
    ensures Agree(df, g, LabDerivedColumns)
    ensures PercentagesDerived(df, g) && RatiosDerived(df, g)
    ensures FreshFactors(df) ==> InstabilityCounted(g)
  {
    g := LabStages(f, now);
    AgreeTrans(df, f, g, ColetaDerivedColumns, LabStageColumns);
    FactorsOutsideColeta();
    LabStagesApart();
    PercentagesKept(df, f, g, LabStageColumns);
    RatiosKept(df, f, g, LabStageColumns);
  }

  /** `_calculate_derived_features`: the coleta copy runs the percentage and ratio blocks;
      the lab copy runs them and then the degradation, lifecycle, pressure and score blocks,
      in the order of the source. The memory share rule raises `KeyError` as written. */
  method CalculateDerivedFeatures(df: Frame, copy: Copy, now: real) returns (r: Result<Frame, string>)
    ensures r.Err? <==> RssKeyError(df)
    ensures r.Err? ==> r.error == "memory_usage_bytes"
    ensures r.Ok? ==> Agree(df, r.value, DerivedColumns(copy))
    ensures r.Ok? ==> PercentagesDerived(df, r.value) && RatiosDerived(df, r.value)
    ensures r.Ok? && copy == Lab && FreshFactors(df) ==> InstabilityCounted(r.value)
  {
    r := BothCopies(df);
    if r.Ok? && copy == Lab {
      var g := LabAfterColeta(df, r.value, now);
      r := Ok(g);
    }
  }

  /** The percentage and ratio blocks, which both copies run. */
  method BothCopies(df: Frame) returns (r: Result<Frame, string>)
    ensures r.Err? <==> RssKeyError(df)
    ensures r.Err? ==> r.error == "memory_usage_bytes"
    ensures r.Ok? ==> Agree(df, r.value, ColetaDerivedColumns)
    ensures r.Ok? ==> PercentagesDerived(df, r.value) && RatiosDerived(df, r.value)
  {
    var r1 := Utilisation(df);
    PercentagesFromBlock(df, r1);
    r := ColetaStages(df, r1);
    if r.Ok? {
      PercentsNotRatios();
      PercentagesKept(df, r1, r.value, BaseRatioColumns);
    }
  }

  lemma FactorsOutsideColeta()
    ensures HasRestarts !in ColetaDerivedColumns && HasOomKills !in ColetaDerivedColumns
    ensures MemoryPressure !in ColetaDerivedColumns && CpuSaturated !in ColetaDerivedColumns
    ensures InstabilityScore !in ColetaDerivedColumns && IsUnstable !in ColetaDerivedColumns
  {
  }

  lemma RatiosAvoidPercents(k: nat)
    requires k < |BaseRatioRules|
    ensures Untouched(BaseRatioRules[k].guard, UtilisationColumns) && Untouched(BaseRatioRules[k].inputs, UtilisationColumns)
    ensures BaseRatioRules[k].target !in UtilisationColumns
  {
  }

  /** What the ratio rules derive from the frame after the percentage block they also derive
      from the frame before it. */
  lemma RatiosFromInput(df: Frame, r1: Frame, r: Frame)
    requires Agree(df, r1, UtilisationColumns)
    requires forall k :: 0 <= k < |BaseRatioRules| ==>
      DerivedAs(r1, r, BaseRatioRules[k].guard, BaseRatioRules[k].target, BaseRatioRules[k].g)
    ensures RatiosDerived(df, r)
  {
    BaseRatioRulesAt();
    RatioFromInput(df, r1, r, 0);
    RatioFromInput(df, r1, r, 1);
    RatioFromInput(df, r1, r, 2);
    RatioFromInput(df, r1, r, 3);
    RatioFromInput(df, r1, r, 4);
    RatioFromInput(df, r1, r, 5);
  }

  lemma RatioFromInput(df: Frame, r1: Frame, r: Frame, k: nat)
    requires k < |BaseRatioRules| && Agree(df, r1, UtilisationColumns)
    requires DerivedAs(r1, r, BaseRatioRules[k].guard, BaseRatioRules[k].target, BaseRatioRules[k].g)
    ensures DerivedAs(df, r, BaseRatioRules[k].guard, BaseRatioRules[k].target, BaseRatioRules[k].g)
  {
    RatiosAvoidPercents(k);
    BaseRatioReads(k);
    GuardIsInputs(k);
    DerivedThrough(df, r1, r, BaseRatioRules[k].guard, BaseRatioRules[k].target, BaseRatioRules[k].g, UtilisationColumns);
  }

  lemma GuardIsInputs(k: nat)
    requires k < |BaseRatioRules|
    ensures BaseRatioRules[k].guard == BaseRatioRules[k].inputs
  {
  }

  /** The memory share columns' guard is read the same before and after the percentage block. */
  lemma RssKeyErrorKept(df: Frame, r1: Frame)
    requires Agree(df, r1, UtilisationColumns)
    ensures RssKeyError(r1) <==> RssKeyError(df)
  {
    assert RssGuardAsWritten[0] !in UtilisationColumns && RssGuardAsWritten[1] !in UtilisationColumns;
    assert "memory_usage_bytes" !in UtilisationColumns;
  }

  /** The ratio block after the percentage block: its rules do not read the percentages. The
      memory share rule as written raises `KeyError` before anything is returned; otherwise
      the block is the one whose memory shares are guarded by every column they read. */
  method ColetaStages(df: Frame, r1: Frame) returns (r: Result<Frame, string>)
    requires Agree(df, r1, UtilisationColumns)
    ensures r.Err? <==> RssKeyError(df)
    ensures r.Err? ==> r.error == "memory_usage_bytes"
    ensures r.Ok? ==> Agree(df, r.value, ColetaDerivedColumns) && Agree(r1, r.value, BaseRatioColumns)
    ensures r.Ok? ==> RatiosDerived(df, r.value)
  {
    RssKeyErrorKept(df, r1);
    var shares := RssSharesAsWritten(r1);
    if shares.Err? {
      return Err(shares.error);
    }
    var f := BaseRatios(r1);
    RatiosFromInput(df, r1, f);
    AgreeTrans(df, r1, f, UtilisationColumns, BaseRatioColumns);
    return Ok(f);
  }
}
