// The derived features that only the lab copy of the pipeline computes
// (lab/ml_dataset_generator.py:547-645), and the whole derived-feature stage of both copies.
module LabFeatures {
  import opened Numbers
  import opened Frames
  import opened Groups
  import opened PromQueries
  import opened DerivedFeatures

  // --- degradation signals (lab 549-570) ---

  const ErrorGuard := ["network_rx_errors", "network_tx_errors"]
  const RatioGuard := ["network_rx_errors", "network_tx_errors", NetworkTotal]
  const DropGuard := ["network_rx_packets_dropped", "network_tx_packets_dropped"]
  const ReadLatencyGuard := ["fs_read_time", "fs_reads"]
  const WriteLatencyGuard := ["fs_write_time", "fs_writes"]
  const FdGuard := ["file_descriptors", "processes"]

  function ErrorCount(x: Row): Num
  {
    Add(At(x, "network_rx_errors"), At(x, "network_tx_errors"))
  }

  /** `network_error_rate / (network_total_bytes + 1)`, with the error rate written out. */
  function ErrorRatio(x: Row): (v: Num)
    ensures At(x, NetworkTotal).NaN? ==> v.NaN?
  {
    Div(ErrorCount(x), Add(At(x, NetworkTotal), Fin(1.0)))
  }

  function DroppedTotal(x: Row): Num
  {
    Add(At(x, "network_rx_packets_dropped"), At(x, "network_tx_packets_dropped"))
  }

  function ReadLatency(x: Row): Num { Ratio(x, "fs_read_time", "fs_reads", 0.001) }
  function WriteLatency(x: Row): Num { Ratio(x, "fs_write_time", "fs_writes", 0.001) }
  function FdPerProcess(x: Row): Num { Ratio(x, "file_descriptors", "processes", 1.0) }

  const DegradationRules := [
    Rule(ErrorGuard, ErrorGuard, NetworkErrorRate, ErrorCount),
    Rule(RatioGuard, RatioGuard, "network_error_ratio", ErrorRatio),
    Rule(DropGuard, DropGuard, PacketsDropped, DroppedTotal),
    Rule(ReadLatencyGuard, ReadLatencyGuard, "fs_read_latency", ReadLatency),
    Rule(WriteLatencyGuard, WriteLatencyGuard, "fs_write_latency", WriteLatency),
    Rule(FdGuard, FdGuard, "fd_per_process", FdPerProcess)]

  const DegradationColumns := {NetworkErrorRate, "network_error_ratio", PacketsDropped,
                               "fs_read_latency", "fs_write_latency", "fd_per_process"}

  lemma DegradationIndependent()
    ensures Independent(DegradationRules) && Targets(DegradationRules) == DegradationColumns
  {
    var rs := DegradationRules;
    DegradationRulesAt();
    assert Targets(rs) == DegradationColumns;
    forall a | 0 <= a < |rs| ensures Untouched(rs[a].guard, DegradationColumns) && Untouched(rs[a].inputs, DegradationColumns) {
      UntouchedByDegradation(a);
    }
    forall a | 0 <= a < |rs| ensures ReadsOnly(rs[a].g, rs[a].inputs) {
      DegradationReads(a);
    }
    IndependentIntro(rs, DegradationColumns);
  }

  lemma UntouchedByDegradation(a: nat)
    requires a < |DegradationRules|
    ensures Untouched(DegradationRules[a].guard, DegradationColumns) && Untouched(DegradationRules[a].inputs, DegradationColumns)
  {
  }

  lemma DegradationReads(a: nat)
    requires a < |DegradationRules|
    ensures ReadsOnly(DegradationRules[a].g, DegradationRules[a].inputs)
  {
    if a == 0 {
      ReadsTwo(ErrorCount, "network_rx_errors", "network_tx_errors");
    } else if a == 1 {
      ReadsThree(ErrorRatio, "network_rx_errors", "network_tx_errors", NetworkTotal);
    } else if a == 2 {
      ReadsTwo(DroppedTotal, "network_rx_packets_dropped", "network_tx_packets_dropped");
    } else if a == 3 {
      ReadsTwo(ReadLatency, "fs_read_time", "fs_reads");
    } else if a == 4 {
      ReadsTwo(WriteLatency, "fs_write_time", "fs_writes");
    } else {
      ReadsTwo(FdPerProcess, "file_descriptors", "processes");
    }
  }

  lemma DegradationRulesAt()
    ensures DegradationRules[0] == Rule(ErrorGuard, ErrorGuard, NetworkErrorRate, ErrorCount)
    ensures DegradationRules[1] == Rule(RatioGuard, RatioGuard, "network_error_ratio", ErrorRatio)
    ensures DegradationRules[2] == Rule(DropGuard, DropGuard, PacketsDropped, DroppedTotal)
    ensures DegradationRules[3] == Rule(ReadLatencyGuard, ReadLatencyGuard, "fs_read_latency", ReadLatency)
    ensures DegradationRules[4] == Rule(WriteLatencyGuard, WriteLatencyGuard, "fs_write_latency", WriteLatency)
    ensures DegradationRules[5] == Rule(FdGuard, FdGuard, "fd_per_process", FdPerProcess)
  {
  }

  method Degradation(df: Frame) returns (r: Frame)
    ensures Agree(df, r, DegradationColumns)
    ensures DerivedAs(df, r, ErrorGuard, NetworkErrorRate, ErrorCount)
    ensures DerivedAs(df, r, RatioGuard, "network_error_ratio", ErrorRatio)
    ensures DerivedAs(df, r, DropGuard, PacketsDropped, DroppedTotal)
    ensures DerivedAs(df, r, ReadLatencyGuard, "fs_read_latency", ReadLatency)
    ensures DerivedAs(df, r, WriteLatencyGuard, "fs_write_latency", WriteLatency)
    ensures DerivedAs(df, r, FdGuard, "fd_per_process", FdPerProcess)
  {
    DegradationIndependent();
    r := ApplyRules(df, DegradationRules);
    DegradationRulesAt();
  }

  // --- lifecycle signals (lab 572-586) ---

  predicate FlagColumn(f: Frame, c: string)
  {
    forall i :: 0 <= i < |f.rows| ==> IsFlag(NumAt(f.rows[i], c))
  }

  function OomFlag(x: Row): (v: Num)
    ensures IsFlag(v) && (v == Fin(1.0) <==> Gt(At(x, "oom_kill_rate"), 0.0))
  {
    Flag(Gt(At(x, "oom_kill_rate"), 0.0))
  }

  function RestartFlag(x: Row): (v: Num)
    ensures IsFlag(v) && (v == Fin(1.0) <==> Gt(At(x, "container_restarts"), 0.0))
  {
    Flag(Gt(At(x, "container_restarts"), 0.0))
  }

  /** `current_time - pod_start_time`, the clock reading being a parameter. */
  function PodAge(x: Row, now: real): (v: Num)
    ensures At(x, "pod_start_time").Fin? ==> v == Fin(now - At(x, "pod_start_time").r)
  {
    Sub(Fin(now), At(x, "pod_start_time"))
  }

  function PodAgeHours(x: Row, now: real): (v: Num)
    ensures At(x, "pod_start_time").Fin? ==> v == Fin((now - At(x, "pod_start_time").r) / 3600.0)
  {
    Div(PodAge(x, now), Fin(3600.0))
  }

  const FlagRules := [
    Rule(["oom_kill_rate"], ["oom_kill_rate"], HasOomKills, OomFlag),
    Rule(["container_restarts"], ["container_restarts"], HasRestarts, RestartFlag)]

  function AgeRules(now: real): seq<Rule>
  {
    [Rule(["pod_start_time"], ["pod_start_time"], "pod_age_seconds", x => PodAge(x, now)),
     Rule(["pod_start_time"], ["pod_start_time"], "pod_age_hours", x => PodAgeHours(x, now))]
  }

  /** `restart_rate`: the change of `container_restarts` since the previous row of the
      same (pod, container), 0 where there is none. */
  function RestartRate(df: Frame): (rs: seq<Num>)
    ensures |rs| == |df.rows|
    ensures forall i :: 0 <= i < |df.rows| ==> !rs[i].NaN?
    ensures forall i :: 0 <= i < |df.rows| && Previous(Keys(df), i).None? ==> rs[i] == Fin(0.0)
  {
    FillColumn(GroupDiff(Keys(df), Column(df, "container_restarts")), Fin(0.0))
  }

  lemma AgeRulesCompute(now: real, x: Row)
    ensures |AgeRules(now)| == 2
    ensures AgeRules(now)[0].g(x) == PodAge(x, now) && AgeRules(now)[1].g(x) == PodAgeHours(x, now)
  {
  }

  const RestartColumns := {HasOomKills, HasRestarts, "restart_rate"}

  /** `has_oom_kills`, `has_restarts` and `restart_rate`. */
  method RestartSignals(df: Frame) returns (r: Frame)
    ensures Agree(df, r, RestartColumns)
    ensures DerivedAs(df, r, ["oom_kill_rate"], HasOomKills, OomFlag)
    ensures DerivedAs(df, r, ["container_restarts"], HasRestarts, RestartFlag)
    ensures Has(r, "restart_rate") <==> Has(df, "restart_rate") || Has(df, "container_restarts")
    ensures Has(df, "container_restarts") ==> Column(r, "restart_rate") == RestartRate(df)
  {
    ReadsOne(OomFlag, "oom_kill_rate");
    ReadsOne(RestartFlag, "container_restarts");
    assert FlagRules[0].target == HasOomKills && FlagRules[1].target == HasRestarts;
    assert Targets(FlagRules) == {HasOomKills, HasRestarts};
    var r1 := ApplyRules(df, FlagRules);
    assert HasAll(r1, ["container_restarts"]) == HasAll(df, ["container_restarts"]);
    assert Column(r1, "container_restarts") == Column(df, "container_restarts");
    assert RestartRate(r1) == RestartRate(df);
    assert HasAll(df, ["container_restarts"]) <==> Has(df, ["container_restarts"][0]);
    r := Derive(r1, ["container_restarts"], "restart_rate", RestartRate(r1));
  }

  lemma FlagsKept(df: Frame, r: Frame, c: string, g: Row -> Num, guard: seq<string>)
    requires DerivedAs(df, r, guard, c, g) && !Has(df, c) && Has(r, c)
    requires forall x :: IsFlag(g(x))
    ensures FlagColumn(r, c)
  {
    assert Column(r, c) == Map(df, g);
    forall i | 0 <= i < |r.rows| ensures IsFlag(NumAt(r.rows[i], c)) {
      assert Column(r, c)[i] == NumAt(r.rows[i], c);
    }
  }

  const AgeColumns := {"pod_age_seconds", "pod_age_hours"}
  const LifecycleColumns := RestartColumns + AgeColumns

  /** `pod_age_seconds` and `pod_age_hours`. */
  method AgeSignals(df: Frame, now: real) returns (r: Frame)
    ensures Agree(df, r, AgeColumns)
    ensures DerivedAs(df, r, ["pod_start_time"], "pod_age_seconds", AgeRules(now)[0].g)
    ensures DerivedAs(df, r, ["pod_start_time"], "pod_age_hours", AgeRules(now)[1].g)
  {
    var ages := AgeRules(now);
    ReadsOne(ages[0].g, "pod_start_time");
    ReadsOne(ages[1].g, "pod_start_time");
    assert Targets(ages) == AgeColumns;
    r := ApplyRules(df, ages);
  }

  method Lifecycle(df: Frame, now: real) returns (r: Frame)
    ensures Agree(df, r, LifecycleColumns)
    ensures DerivedAs(df, r, ["oom_kill_rate"], HasOomKills, OomFlag)
    ensures DerivedAs(df, r, ["container_restarts"], HasRestarts, RestartFlag)
    ensures Has(r, "restart_rate") <==> Has(df, "restart_rate") || Has(df, "container_restarts")
    ensures Has(df, "container_restarts") ==> Column(r, "restart_rate") == RestartRate(df)
    ensures DerivedAs(df, r, ["pod_start_time"], "pod_age_seconds", AgeRules(now)[0].g)
    ensures DerivedAs(df, r, ["pod_start_time"], "pod_age_hours", AgeRules(now)[1].g)
    ensures forall c :: c in {HasOomKills, HasRestarts} && !Has(df, c) && Has(r, c) ==> FlagColumn(r, c)
  {
    var r2 := RestartSignals(df);
    r := AgeSignals(r2, now);
    AgreeTrans(df, r2, r, RestartColumns, AgeColumns);
    DerivedKept(df, r2, r, ["oom_kill_rate"], HasOomKills, OomFlag, AgeColumns);
    DerivedKept(df, r2, r, ["container_restarts"], HasRestarts, RestartFlag, AgeColumns);
    assert Untouched(["pod_start_time"], RestartColumns);
    ReadsOne(AgeRules(now)[0].g, "pod_start_time");
    ReadsOne(AgeRules(now)[1].g, "pod_start_time");
    DerivedThrough(df, r2, r, ["pod_start_time"], "pod_age_seconds", AgeRules(now)[0].g, RestartColumns);
    DerivedThrough(df, r2, r, ["pod_start_time"], "pod_age_hours", AgeRules(now)[1].g, RestartColumns);
    if !Has(df, HasOomKills) && Has(r, HasOomKills) { FlagsKept(df, r, HasOomKills, OomFlag, ["oom_kill_rate"]); }
    if !Has(df, HasRestarts) && Has(r, HasRestarts) { FlagsKept(df, r, HasRestarts, RestartFlag, ["container_restarts"]); }
  }

  // --- pressure and capacity signals (lab 588-610) ---

  function Headroom(x: Row): (v: Num)
    ensures At(x, WorkingSet).Fin? && At(x, MemoryLimit).Fin? ==> v == Fin(At(x, MemoryLimit).r - At(x, WorkingSet).r)
  {
    Sub(At(x, MemoryLimit), At(x, WorkingSet))
  }

  /** `memory_headroom_bytes / memory_limit * 100`, with the headroom written out. */
  function HeadroomPercent(x: Row): (v: Num)
    ensures At(x, WorkingSet).Fin? && At(x, MemoryLimit).Fin? && At(x, MemoryLimit).r != 0.0
            ==> v == Fin((At(x, MemoryLimit).r - At(x, WorkingSet).r) / At(x, MemoryLimit).r * 100.0)
  {
    Mul(Div(Headroom(x), At(x, MemoryLimit)), Fin(100.0))
  }

  /** `memory_pressure`: usage strictly above 80 percent; a missing usage reads as 0. */
  function PressureFlag(x: Row): (v: Num)
    ensures IsFlag(v)
    ensures v == Fin(1.0) <==> (At(x, MemoryUsagePct).Fin? && At(x, MemoryUsagePct).r > 80.0) || At(x, MemoryUsagePct).PosInf?
  {
    Flag(Gt(At(x, MemoryUsagePct), 80.0))
  }

  function SaturationFlag(x: Row): (v: Num)
    ensures IsFlag(v) && (v == Fin(1.0) <==> Gt(At(x, "cpu_throttled_periods"), 0.0))
  {
    Flag(Gt(At(x, "cpu_throttled_periods"), 0.0))
  }

  function IoWait(x: Row): Num { Ratio(x, "tasks_uninterruptible", "processes", 1.0) }
  function MemoryOvercommit(x: Row): Num { Ratio(x, "memory_limits", "memory_requests", 1.0) }
  function CpuOvercommit(x: Row): Num { Ratio(x, "cpu_limits", "cpu_requests", 1.0) }

  const IoGuard := ["tasks_uninterruptible", "processes"]
  const MemoryCommitGuard := ["memory_requests", "memory_limits"]
  const CpuCommitGuard := ["cpu_requests", "cpu_limits"]

  /** `memory_pressure` is guarded by the memory columns but reads `memory_usage_percent`,
      which the percentage stage writes under the same guard. */
  const PressureRules := [
    Rule(MemoryGuard, MemoryGuard, "memory_headroom_bytes", Headroom),
    Rule(MemoryGuard, MemoryGuard, "memory_headroom_percent", HeadroomPercent),
    Rule(MemoryGuard, [MemoryUsagePct], MemoryPressure, PressureFlag),
    Rule(["cpu_throttled_periods"], ["cpu_throttled_periods"], CpuSaturated, SaturationFlag),
    Rule(IoGuard, IoGuard, "io_wait_ratio", IoWait),
    Rule(MemoryCommitGuard, MemoryCommitGuard, "memory_overcommit_ratio", MemoryOvercommit),
    Rule(CpuCommitGuard, CpuCommitGuard, "cpu_overcommit_ratio", CpuOvercommit)]

  const PressureColumns := {"memory_headroom_bytes", "memory_headroom_percent", MemoryPressure, CpuSaturated,
                            "io_wait_ratio", "memory_overcommit_ratio", "cpu_overcommit_ratio"}

  lemma PressureIndependent()
    ensures Independent(PressureRules) && Targets(PressureRules) == PressureColumns
  {
    var rs := PressureRules;
    PressureTargets();
    forall a | 0 <= a < |rs| ensures Untouched(rs[a].guard, PressureColumns) && Untouched(rs[a].inputs, PressureColumns) {
      UntouchedByPressure(a);
    }
    forall a | 0 <= a < |rs| ensures ReadsOnly(rs[a].g, rs[a].inputs) {
      PressureReads(a);
    }
    IndependentIntro(rs, PressureColumns);
  }

  lemma PressureTargets()
    ensures Targets(PressureRules) == PressureColumns
    ensures forall a, b :: 0 <= a < b < |PressureRules| ==> PressureRules[a].target != PressureRules[b].target
  {
    PressureRulesAt();
  }

  lemma PressureReads(a: nat)
    requires a < |PressureRules|
    ensures ReadsOnly(PressureRules[a].g, PressureRules[a].inputs)
  {
    PressureRulesAt();
    if a == 0 {
      ReadsTwo(Headroom, WorkingSet, MemoryLimit);
    } else if a == 1 {
      ReadsTwo(HeadroomPercent, WorkingSet, MemoryLimit);
    } else if a == 2 {
      ReadsOne(PressureFlag, MemoryUsagePct);
    } else if a == 3 {
      ReadsOne(SaturationFlag, "cpu_throttled_periods");
    } else if a == 4 {
      ReadsTwo(IoWait, "tasks_uninterruptible", "processes");
    } else if a == 5 {
      ReadsTwo(MemoryOvercommit, "memory_requests", "memory_limits");
    } else {
      ReadsTwo(CpuOvercommit, "cpu_requests", "cpu_limits");
    }
  }

  lemma UntouchedByPressure(a: nat)
    requires a < |PressureRules|
    ensures Untouched(PressureRules[a].guard, PressureColumns) && Untouched(PressureRules[a].inputs, PressureColumns)
  {
  }

  lemma PressureRulesAt()
    ensures PressureRules[0] == Rule(MemoryGuard, MemoryGuard, "memory_headroom_bytes", Headroom)
    ensures PressureRules[1] == Rule(MemoryGuard, MemoryGuard, "memory_headroom_percent", HeadroomPercent)
    ensures PressureRules[2] == Rule(MemoryGuard, [MemoryUsagePct], MemoryPressure, PressureFlag)
    ensures PressureRules[3] == Rule(["cpu_throttled_periods"], ["cpu_throttled_periods"], CpuSaturated, SaturationFlag)
    ensures PressureRules[4] == Rule(IoGuard, IoGuard, "io_wait_ratio", IoWait)
    ensures PressureRules[5] == Rule(MemoryCommitGuard, MemoryCommitGuard, "memory_overcommit_ratio", MemoryOvercommit)
    ensures PressureRules[6] == Rule(CpuCommitGuard, CpuCommitGuard, "cpu_overcommit_ratio", CpuOvercommit)
  {
  }

  method Pressure(df: Frame) returns (r: Frame)
    ensures Agree(df, r, PressureColumns)
    ensures DerivedAs(df, r, MemoryGuard, "memory_headroom_bytes", Headroom)
    ensures DerivedAs(df, r, MemoryGuard, "memory_headroom_percent", HeadroomPercent)
    ensures DerivedAs(df, r, MemoryGuard, MemoryPressure, PressureFlag)
    ensures DerivedAs(df, r, ["cpu_throttled_periods"], CpuSaturated, SaturationFlag)
    ensures DerivedAs(df, r, IoGuard, "io_wait_ratio", IoWait)
    ensures DerivedAs(df, r, MemoryCommitGuard, "memory_overcommit_ratio", MemoryOvercommit)
    ensures DerivedAs(df, r, CpuCommitGuard, "cpu_overcommit_ratio", CpuOvercommit)
    ensures forall c :: c in {MemoryPressure, CpuSaturated} && !Has(df, c) && Has(r, c) ==> FlagColumn(r, c)
  {
    PressureIndependent();
    r := ApplyRules(df, PressureRules);
    PressureRulesAt();
    if !Has(df, MemoryPressure) && Has(r, MemoryPressure) { FlagsKept(df, r, MemoryPressure, PressureFlag, MemoryGuard); }
    if !Has(df, CpuSaturated) && Has(r, CpuSaturated) {
      FlagsKept(df, r, CpuSaturated, SaturationFlag, ["cpu_throttled_periods"]);
    }
  }

  // --- instability and network health scores (lab 612-645) ---

  const StabilityFactors := [HasRestarts, HasOomKills, MemoryPressure, CpuSaturated]
  const NetworkFactors := [NetworkErrorRate, PacketsDropped]
  const ScoreColumns := {InstabilityScore, IsUnstable, NetworkUnhealthy, HasNetworkIssues}

  /** The columns of `cs` that `df` has, in the order of `cs`. */
  function PresentOf(df: Frame, cs: seq<string>): (ps: seq<string>)
    ensures forall c :: c in ps <==> c in cs && Has(df, c)
    ensures |ps| <= |cs|
  {
    if cs == [] then [] else (if Has(df, cs[0]) then [cs[0]] else []) + PresentOf(df, cs[1..])
  }

  /** The cells of `x` in the columns `fs`. */
  function Values(x: Row, fs: seq<string>): (vs: seq<Num>)
    ensures |vs| == |fs| && forall k :: 0 <= k < |fs| ==> vs[k] == At(x, fs[k])
  {
    seq(|fs|, k requires 0 <= k < |fs| => At(x, fs[k]))
  }

  function Ones(vs: seq<Num>): (n: nat)
    ensures n <= |vs|
  {
    if vs == [] then 0 else Ones(vs[..|vs| - 1]) + (if vs[|vs| - 1] == Fin(1.0) then 1 else 0)
  }

  /** `(v > 0).astype(int)` for each value. */
  function Indicators(vs: seq<Num>): (fs: seq<Num>)
    ensures |fs| == |vs| && forall k :: 0 <= k < |vs| ==> fs[k] == Flag(Gt(vs[k], 0.0))
  {
    seq(|vs|, k requires 0 <= k < |vs| => Flag(Gt(vs[k], 0.0)))
  }

  lemma AddCounts(c: nat, d: nat)
    ensures Add(Fin(c as real), Fin(d as real)) == Fin((c + d) as real)
  {
  }

  /** Summing 0/1 values counts the ones. */
  lemma {:induction false} TotalOfFlags(vs: seq<Num>)
    requires forall k :: 0 <= k < |vs| ==> IsFlag(vs[k])
    ensures Total(vs) == Fin(Ones(vs) as real)
  {
    if vs != [] {
      var init := vs[..|vs| - 1];
      TotalOfFlags(init);
      var c := Ones(init);
      var last := vs[|vs| - 1];
      var d: nat := if last == Fin(1.0) then 1 else 0;
      assert last == Fin(d as real);
      AddCounts(c, d);
      assert Total(vs) == Add(Total(init), last);
      assert Ones(vs) == c + d;
    }
  }

  /** The count of ones is positive iff some value is 1. */
  lemma {:induction false} OnesPositive(vs: seq<Num>)
    ensures Ones(vs) > 0 <==> exists k :: 0 <= k < |vs| && vs[k] == Fin(1.0)
  {
    if vs != [] {
      var init := vs[..|vs| - 1];
      OnesPositive(init);
      if Ones(init) > 0 {
        var k :| 0 <= k < |init| && init[k] == Fin(1.0);
        assert vs[k] == Fin(1.0);
      } else if vs[|vs| - 1] == Fin(1.0) {
      } else {
        assert Ones(vs) == 0;
        forall k | 0 <= k < |vs| ensures vs[k] != Fin(1.0) {
          if k < |init| { assert vs[k] == init[k]; }
        }
      }
    }
  }

  /** The number of present stability factors equal to 1. */
  function CountOnes(x: Row, fs: seq<string>): nat
  {
    Ones(Values(x, fs))
  }

  /** `sum(stability_factors)`. */
  function SumOf(x: Row, fs: seq<string>): Num
  {
    Total(Values(x, fs))
  }

  /** `sum((df[c] > 0).astype(int) for c in fs)`. */
  function FlagSum(x: Row, fs: seq<string>): Num
  {
    Total(Indicators(Values(x, fs)))
  }

  /** The number of present network factors above 0. */
  function CountPositive(x: Row, fs: seq<string>): nat
  {
    Ones(Indicators(Values(x, fs)))
  }

  /** With 0/1 factors, the instability score counts the factors equal to 1. */
  lemma SumOfFlags(x: Row, fs: seq<string>)
    requires forall k :: 0 <= k < |fs| ==> IsFlag(At(x, fs[k]))
    ensures SumOf(x, fs) == Fin(CountOnes(x, fs) as real)
    ensures CountOnes(x, fs) > 0 <==> exists k :: 0 <= k < |fs| && At(x, fs[k]) == Fin(1.0)
  {
    TotalOfFlags(Values(x, fs));
    OnesPositive(Values(x, fs));
  }

  /** `network_unhealthy` counts the positive factors; it is positive iff one of them is. */
  lemma FlagSumCounts(x: Row, fs: seq<string>)
    ensures FlagSum(x, fs) == Fin(CountPositive(x, fs) as real)
    ensures CountPositive(x, fs) > 0 <==> exists k :: 0 <= k < |fs| && Gt(At(x, fs[k]), 0.0)
  {
    var ind := Indicators(Values(x, fs));
    TotalOfFlags(ind);
    OnesPositive(ind);
    assert forall k :: 0 <= k < |fs| ==> (ind[k] == Fin(1.0) <==> Gt(At(x, fs[k]), 0.0));
  }

  /** `sum(stability_factors)` row by row. */
  function StabilitySums(df: Frame, fs: seq<string>): (vs: seq<Num>)
    ensures |vs| == |df.rows| && forall i :: 0 <= i < |df.rows| ==> vs[i] == SumOf(df.rows[i], fs)
  {
    seq(|df.rows|, i requires 0 <= i < |df.rows| => SumOf(df.rows[i], fs))
  }

  /** `sum(network_health_factors)` row by row. */
  function NetworkSums(df: Frame, fs: seq<string>): (vs: seq<Num>)
    ensures |vs| == |df.rows| && forall i :: 0 <= i < |df.rows| ==> vs[i] == FlagSum(df.rows[i], fs)
  {
    seq(|df.rows|, i requires 0 <= i < |df.rows| => FlagSum(df.rows[i], fs))
  }

  /** A score column and its `score > 0` flag, both written only when some factor exists. */
  predicate ScoredAs(df: Frame, r: Frame, sumCol: string, flagCol: string, fs: seq<string>, sums: seq<Num>)
  {
    (Has(r, sumCol) <==> Has(df, sumCol) || fs != [])
    && (Has(r, flagCol) <==> Has(df, flagCol) || fs != [])
    && (fs != [] ==> Column(r, sumCol) == sums && Column(r, flagCol) == Indicators(sums))
  }

  function SetScore(df: Frame, sumCol: string, flagCol: string, fs: seq<string>, sums: seq<Num>): (r: Frame)
    requires |sums| == |df.rows| && sumCol != flagCol
    ensures Agree(df, r, {sumCol, flagCol})
    ensures ScoredAs(df, r, sumCol, flagCol, fs, sums)
  {
    if fs == [] then df
    else
      var r1 := SetNumbers(df, sumCol, sums);
      SetNumbers(r1, flagCol, Indicators(sums))
  }

  method Scores(df: Frame) returns (r: Frame)
    ensures Agree(df, r, ScoreColumns)
    ensures ScoredAs(df, r, InstabilityScore, IsUnstable, PresentOf(df, StabilityFactors),
                     StabilitySums(df, PresentOf(df, StabilityFactors)))
    ensures ScoredAs(df, r, NetworkUnhealthy, HasNetworkIssues, PresentOf(df, NetworkFactors),
                     NetworkSums(df, PresentOf(df, NetworkFactors)))
  {
    var fs := PresentOf(df, StabilityFactors);
    var r1 := SetScore(df, InstabilityScore, IsUnstable, fs, StabilitySums(df, fs));
    var ns := PresentOf(df, NetworkFactors);
    assert |Keys(r1)| == |Keys(df)|;
    r := SetScore(r1, NetworkUnhealthy, HasNetworkIssues, ns, NetworkSums(df, ns));
  }
}
