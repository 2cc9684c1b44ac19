// `_calculate_derived_features`: columns computed row by row from the pivot,
// each added only when the columns it reads exist.
module DerivedFeatures {
  import opened Wrappers
  import opened Numbers
  import opened Frames
  import opened Groups
  import opened PromQueries

  /** `(condition).astype(int)`. */
  function Flag(b: bool): (v: Num)
    ensures v == Fin(1.0) || v == Fin(0.0)
    ensures v == Fin(1.0) <==> b
  {
    if b then Fin(1.0) else Fin(0.0)
  }

  predicate Within(v: Num, lo: real, hi: real) { v.NaN? || (v.Fin? && lo <= v.r <= hi) }

  predicate IsFlag(v: Num) { v == Fin(0.0) || v == Fin(1.0) }

  function At(x: Row, c: string): Num { NumAt(x, c) }

  /** `a / (b + eps)`. */
  function Ratio(x: Row, a: string, b: string, eps: real): Num
  {
    Div(At(x, a), Add(At(x, b), Fin(eps)))
  }

  // Column names (inputs from the pivot and the columns this stage writes).
  const WorkingSet := "memory_working_set_bytes"
  const MemoryLimit := "memory_limit"
  const MemoryUsagePct := "memory_usage_percent"
  const CpuUsagePct := "cpu_usage_percent"
  const DiskUsagePct := "disk_usage_percent"
  const NetworkTotal := "network_total_bytes"
  const NetworkErrorRate := "network_error_rate"
  const PacketsDropped := "network_packets_dropped_total"
  const HasRestarts := "has_restarts"
  const HasOomKills := "has_oom_kills"
  const MemoryPressure := "memory_pressure"
  const CpuSaturated := "cpu_saturated"
  const InstabilityScore := "instability_score"
  const IsUnstable := "is_unstable"
  const NetworkUnhealthy := "network_unhealthy"
  const HasNetworkIssues := "has_network_issues"

  const MemoryGuard := [WorkingSet, MemoryLimit]
  const CpuGuard := ["cpu_usage_total", "cpu_quota", "cpu_period"]
  const DiskGuard := ["fs_usage_bytes", "fs_limit_bytes"]

  /** Memory in use as a percentage of the limit, clipped to [0, 100]. */
  function MemoryUsagePercent(x: Row): (v: Num)
    ensures Within(v, 0.0, 100.0)
    ensures At(x, WorkingSet).Fin? && At(x, MemoryLimit).Fin? && At(x, MemoryLimit).r > 0.0
            && 0.0 <= At(x, WorkingSet).r <= At(x, MemoryLimit).r
            ==> v == Fin(At(x, WorkingSet).r / At(x, MemoryLimit).r * 100.0)
  {
    var ws := At(x, WorkingSet);
    var lim := At(x, MemoryLimit);
    if ws.Fin? && lim.Fin? && lim.r > 0.0 && 0.0 <= ws.r <= lim.r then
      PercentOfLimit(ws.r, lim.r);
      Clip(Mul(Div(ws, lim), Fin(100.0)), 0.0, 100.0)
    else
      Clip(Mul(Div(ws, lim), Fin(100.0)), 0.0, 100.0)
  }

  lemma PercentOfLimit(a: real, b: real)
    requires b > 0.0 && 0.0 <= a <= b
    ensures 0.0 <= a / b * 100.0 <= 100.0
  {
    assert a / b <= 1.0;
  }

  /** CPU seconds used over the cores the quota allows, as a percentage clipped to [0, 200]. */
  function CpuUsagePercent(x: Row): (v: Num)
    ensures Within(v, 0.0, 200.0)
    ensures At(x, "cpu_usage_total").NaN? || At(x, "cpu_quota").NaN? || At(x, "cpu_period").NaN? ==> v.NaN?
  {
    Clip(Mul(Div(At(x, "cpu_usage_total"), Div(At(x, "cpu_quota"), At(x, "cpu_period"))), Fin(100.0)), 0.0, 200.0)
  }

  /** Filesystem usage as a percentage of its limit, clipped to [0, 100]. */
  function DiskUsagePercent(x: Row): (v: Num)
    ensures Within(v, 0.0, 100.0)
    ensures At(x, "fs_usage_bytes").NaN? || At(x, "fs_limit_bytes").NaN? ==> v.NaN?
  {
    Clip(Mul(Div(At(x, "fs_usage_bytes"), At(x, "fs_limit_bytes")), Fin(100.0)), 0.0, 100.0)
  }

  const UtilisationRules := [
    Rule(MemoryGuard, MemoryGuard, MemoryUsagePct, MemoryUsagePercent),
    Rule(CpuGuard, CpuGuard, CpuUsagePct, CpuUsagePercent),
    Rule(DiskGuard, DiskGuard, DiskUsagePct, DiskUsagePercent)]

  /** The columns the percentage block writes. */
  const UtilisationColumns := {MemoryUsagePct, CpuUsagePct, DiskUsagePct}

  lemma UtilisationIndependent()
    ensures Independent(UtilisationRules)
  {
    var rs := UtilisationRules;
    UtilisationRulesAt();
    assert Targets(rs) == UtilisationColumns by {
      assert rs[0].target == MemoryUsagePct && rs[1].target == CpuUsagePct && rs[2].target == DiskUsagePct;
    }
    forall a | 0 <= a < |rs| ensures Untouched(rs[a].guard, UtilisationColumns) && Untouched(rs[a].inputs, UtilisationColumns) {
      UtilisationUntouched(a);
    }
    UtilisationReads();
    IndependentIntro(rs, UtilisationColumns);
  }

  lemma UtilisationRulesAt()
    ensures |UtilisationRules| == 3
    ensures UtilisationRules[0] == Rule(MemoryGuard, MemoryGuard, MemoryUsagePct, MemoryUsagePercent)
    ensures UtilisationRules[1] == Rule(CpuGuard, CpuGuard, CpuUsagePct, CpuUsagePercent)
    ensures UtilisationRules[2] == Rule(DiskGuard, DiskGuard, DiskUsagePct, DiskUsagePercent)
  {
  }

  lemma UtilisationUntouched(a: nat)
    requires a < |UtilisationRules|
    ensures Untouched(UtilisationRules[a].guard, UtilisationColumns) && Untouched(UtilisationRules[a].inputs, UtilisationColumns)
  {
  }

  lemma UtilisationReads()
    ensures forall a :: 0 <= a < |UtilisationRules| ==> ReadsOnly(UtilisationRules[a].g, UtilisationRules[a].inputs)
  {
    UtilisationRulesAt();
    ReadsTwo(MemoryUsagePercent, WorkingSet, MemoryLimit);
    ReadsThree(CpuUsagePercent, "cpu_usage_total", "cpu_quota", "cpu_period");
    ReadsTwo(DiskUsagePercent, "fs_usage_bytes", "fs_limit_bytes");
    assert MemoryGuard == [WorkingSet, MemoryLimit] && CpuGuard == ["cpu_usage_total", "cpu_quota", "cpu_period"];
    assert DiskGuard == ["fs_usage_bytes", "fs_limit_bytes"];
  }

  /** The percentage block (lab 510-524, coleta 327-341). */
  method Utilisation(df: Frame) returns (r: Frame)
    ensures Agree(df, r, UtilisationColumns)
    ensures DerivedAs(df, r, MemoryGuard, MemoryUsagePct, MemoryUsagePercent)
    ensures DerivedAs(df, r, CpuGuard, CpuUsagePct, CpuUsagePercent)
    ensures DerivedAs(df, r, DiskGuard, DiskUsagePct, DiskUsagePercent)
    ensures forall c, i :: c in {MemoryUsagePct, DiskUsagePct} && !Has(df, c) && Has(r, c) && 0 <= i < |r.rows|
              ==> Within(NumAt(r.rows[i], c), 0.0, 100.0)
    ensures !Has(df, CpuUsagePct) && Has(r, CpuUsagePct) ==> forall i :: 0 <= i < |r.rows| ==> Within(NumAt(r.rows[i], CpuUsagePct), 0.0, 200.0)
  {
    UtilisationIndependent();
    r := ApplyRules(df, UtilisationRules);
    assert UtilisationRules[0].target == MemoryUsagePct && UtilisationRules[1].target == CpuUsagePct;
    assert UtilisationRules[2].target == DiskUsagePct;
    assert Targets(UtilisationRules) == UtilisationColumns;
    forall c, i | c in {MemoryUsagePct, DiskUsagePct} && !Has(df, c) && Has(r, c) && 0 <= i < |r.rows|
      ensures Within(NumAt(r.rows[i], c), 0.0, 100.0)
    {
      assert Column(r, c)[i] == NumAt(r.rows[i], c);
    }
    if !Has(df, CpuUsagePct) && Has(r, CpuUsagePct) {
      forall i | 0 <= i < |r.rows| ensures Within(NumAt(r.rows[i], CpuUsagePct), 0.0, 200.0) {
        assert Column(r, CpuUsagePct)[i] == NumAt(r.rows[i], CpuUsagePct);
      }
    }
  }

  // --- base ratios (lab 526-545, coleta 343-361) ---

  const ThrottleGuard := ["cpu_throttled_periods", "cpu_throttled_time"]
  const NetworkGuard := ["network_rx_bytes", "network_tx_bytes"]
  const DiskIoGuard := ["fs_reads", "fs_writes"]
  const ThreadsGuard := ["processes", "threads"]
  /** The columns that the memory share rule reads (see Findings in README). */
  const RssGuard := ["memory_rss", "memory_cache", "memory_usage_bytes"]
  /** The columns that the memory share rule tests for in the source. */
  const RssGuardAsWritten := ["memory_rss", "memory_cache"]

  function ThrottlingRate(x: Row): (v: Num)
    ensures At(x, "cpu_throttled_time").NaN? || At(x, "cpu_throttled_periods").NaN? ==> v.NaN?
    ensures At(x, "cpu_throttled_time").Fin? && At(x, "cpu_throttled_periods").Fin? && At(x, "cpu_throttled_periods").r >= 0.0
            ==> v == Fin(At(x, "cpu_throttled_time").r / (At(x, "cpu_throttled_periods").r + 0.001))
  {
    Ratio(x, "cpu_throttled_time", "cpu_throttled_periods", 0.001)
  }

  function RssShare(x: Row): (v: Num)
    ensures At(x, "memory_rss").Fin? && At(x, "memory_usage_bytes").Fin? && At(x, "memory_usage_bytes").r >= 0.0
            ==> v == Fin(At(x, "memory_rss").r / (At(x, "memory_usage_bytes").r + 1.0))
  {
    Ratio(x, "memory_rss", "memory_usage_bytes", 1.0)
  }

  function CacheShare(x: Row): (v: Num)
    ensures At(x, "memory_cache").Fin? && At(x, "memory_usage_bytes").Fin? && At(x, "memory_usage_bytes").r >= 0.0
            ==> v == Fin(At(x, "memory_cache").r / (At(x, "memory_usage_bytes").r + 1.0))
  {
    Ratio(x, "memory_cache", "memory_usage_bytes", 1.0)
  }

  function NetworkTotalBytes(x: Row): (v: Num)
    ensures At(x, "network_rx_bytes").Fin? && At(x, "network_tx_bytes").Fin?
            ==> v == Fin(At(x, "network_rx_bytes").r + At(x, "network_tx_bytes").r)
  {
    Add(At(x, "network_rx_bytes"), At(x, "network_tx_bytes"))
  }

  function DiskIoTotal(x: Row): (v: Num)
    ensures At(x, "fs_reads").Fin? && At(x, "fs_writes").Fin? ==> v == Fin(At(x, "fs_reads").r + At(x, "fs_writes").r)
  {
    Add(At(x, "fs_reads"), At(x, "fs_writes"))
  }

  function ThreadsPerProcess(x: Row): (v: Num)
    ensures At(x, "threads").Fin? && At(x, "processes").Fin? && At(x, "processes").r >= 0.0
            ==> v == Fin(At(x, "threads").r / (At(x, "processes").r + 1.0))
  {
    Ratio(x, "threads", "processes", 1.0)
  }

  const BaseRatioRules := [
    Rule(ThrottleGuard, ThrottleGuard, "cpu_throttling_rate", ThrottlingRate),
    Rule(RssGuard, RssGuard, "memory_rss_percent", RssShare),
    Rule(RssGuard, RssGuard, "memory_cache_percent", CacheShare),
    Rule(NetworkGuard, NetworkGuard, NetworkTotal, NetworkTotalBytes),
    Rule(DiskIoGuard, DiskIoGuard, "disk_io_total", DiskIoTotal),
    Rule(ThreadsGuard, ThreadsGuard, "threads_per_process", ThreadsPerProcess)]

  const BaseRatioColumns := {"cpu_throttling_rate", "memory_rss_percent", "memory_cache_percent",
                             NetworkTotal, "disk_io_total", "threads_per_process"}

  lemma BaseRatioRulesAt()
    ensures BaseRatioRules[0] == Rule(ThrottleGuard, ThrottleGuard, "cpu_throttling_rate", ThrottlingRate)
    ensures BaseRatioRules[1] == Rule(RssGuard, RssGuard, "memory_rss_percent", RssShare)
    ensures BaseRatioRules[2] == Rule(RssGuard, RssGuard, "memory_cache_percent", CacheShare)
    ensures BaseRatioRules[3] == Rule(NetworkGuard, NetworkGuard, NetworkTotal, NetworkTotalBytes)
    ensures BaseRatioRules[4] == Rule(DiskIoGuard, DiskIoGuard, "disk_io_total", DiskIoTotal)
    ensures BaseRatioRules[5] == Rule(ThreadsGuard, ThreadsGuard, "threads_per_process", ThreadsPerProcess)
  {
  }

  lemma BaseRatiosIndependent()
    ensures Independent(BaseRatioRules) && Targets(BaseRatioRules) == BaseRatioColumns
  {
    var rs := BaseRatioRules;
    BaseRatioRulesAt();
    assert Targets(rs) == BaseRatioColumns;
    forall a | 0 <= a < |rs| ensures Untouched(rs[a].guard, BaseRatioColumns) && Untouched(rs[a].inputs, BaseRatioColumns) {
      UntouchedByBaseRatios(a);
    }
    forall a | 0 <= a < |rs| ensures ReadsOnly(rs[a].g, rs[a].inputs) {
      BaseRatioReads(a);
    }
    IndependentIntro(rs, BaseRatioColumns);
  }

  lemma UntouchedByBaseRatios(a: nat)
    requires a < |BaseRatioRules|
    ensures Untouched(BaseRatioRules[a].guard, BaseRatioColumns) && Untouched(BaseRatioRules[a].inputs, BaseRatioColumns)
  {
  }

  lemma BaseRatioReads(a: nat)
    requires a < |BaseRatioRules|
    ensures ReadsOnly(BaseRatioRules[a].g, BaseRatioRules[a].inputs)
  {
    if a == 0 {
      ReadsTwo(ThrottlingRate, "cpu_throttled_periods", "cpu_throttled_time");
    } else if a == 1 {
      ReadsThree(RssShare, "memory_rss", "memory_cache", "memory_usage_bytes");
    } else if a == 2 {
      ReadsThree(CacheShare, "memory_rss", "memory_cache", "memory_usage_bytes");
    } else if a == 3 {
      ReadsTwo(NetworkTotalBytes, "network_rx_bytes", "network_tx_bytes");
    } else if a == 4 {
      ReadsTwo(DiskIoTotal, "fs_reads", "fs_writes");
    } else {
      ReadsTwo(ThreadsPerProcess, "processes", "threads");
    }
  }

  /** The ratio block that both copies run, with the memory shares guarded by every
      column they read; it never fails. */
  method BaseRatios(df: Frame) returns (r: Frame)
    ensures Agree(df, r, BaseRatioColumns)
    ensures forall k :: 0 <= k < |BaseRatioRules| ==>
      DerivedAs(df, r, BaseRatioRules[k].guard, BaseRatioRules[k].target, BaseRatioRules[k].g)
    ensures DerivedAs(df, r, ThrottleGuard, "cpu_throttling_rate", ThrottlingRate)
    ensures DerivedAs(df, r, RssGuard, "memory_rss_percent", RssShare)
    ensures DerivedAs(df, r, RssGuard, "memory_cache_percent", CacheShare)
    ensures DerivedAs(df, r, NetworkGuard, NetworkTotal, NetworkTotalBytes)
    ensures DerivedAs(df, r, DiskIoGuard, "disk_io_total", DiskIoTotal)
    ensures DerivedAs(df, r, ThreadsGuard, "threads_per_process", ThreadsPerProcess)
  {
    BaseRatiosIndependent();
    r := ApplyRules(df, BaseRatioRules);
    BaseRatioRulesAt();
  }

  /** The frames on which the memory share rule as written raises `KeyError`: they hold
      `memory_rss` and `memory_cache` but not `memory_usage_bytes`. */
  predicate RssKeyError(df: Frame)
  {
    HasAll(df, RssGuardAsWritten) && !Has(df, "memory_usage_bytes")
  }

  /** The memory share rule as written: it tests for `memory_rss` and `memory_cache`
      and then reads `memory_usage_bytes`, which raises `KeyError` when absent. */
  method RssSharesAsWritten(df: Frame) returns (r: Result<Frame, string>)
    ensures r.Err? <==> RssKeyError(df)
    ensures r.Err? ==> r.error == "memory_usage_bytes"
    ensures r.Ok? ==> DerivedAs(df, r.value, RssGuard, "memory_rss_percent", RssShare)
                      && DerivedAs(df, r.value, RssGuard, "memory_cache_percent", CacheShare)
                      && Agree(df, r.value, {"memory_rss_percent", "memory_cache_percent"})
  {
    if HasAll(df, RssGuardAsWritten) && !Has(df, "memory_usage_bytes") {
      return Err("memory_usage_bytes");
    }
    BaseRatiosIndependent();
    var rules := BaseRatioRules[1..3];
    BaseRatioRulesAt();
    assert rules[0] == BaseRatioRules[1] && rules[1] == BaseRatioRules[2];
    assert Targets(rules) == {"memory_rss_percent", "memory_cache_percent"};
    var f := ApplyRules(df, rules);
    return Ok(f);
  }

  /** A frame with `memory_rss` and `memory_cache` but no `memory_usage_bytes` passes the
      source's guard and then fails on the missing column. */
  lemma RssCacheKeyError()
    ensures var f := Frame(["memory_rss", "memory_cache"], []);
            HasAll(f, RssGuardAsWritten) && !Has(f, "memory_usage_bytes") && !HasAll(f, RssGuard)
  {
    var f := Frame(["memory_rss", "memory_cache"], []);
    assert "memory_usage_bytes"[7] != "memory_rss"[7];
    assert "memory_usage_bytes"[7] != "memory_cache"[7];
    assert !Has(f, RssGuard[2]);
  }
}
