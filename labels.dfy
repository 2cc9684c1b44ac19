// The target labels both dataset generators attach to every row: per resource a
// warning, an overload and a critical flag (strict `usage > threshold`, 0 when the
// usage column is missing), their OR as `critical_overload`, and the multi-class
// `overload_severity` written by successive overwrites.
module Labels {
  import opened Numbers
  import opened Frames
  import opened Thresholds
  import opened DerivedFeatures

  const MemoryWarning := "memory_warning"
  const MemoryOverload := "memory_overload"
  const MemoryCritical := "memory_critical"
  const CpuWarning := "cpu_warning"
  const CpuOverload := "cpu_overload"
  const CpuCritical := "cpu_critical"
  const DiskWarning := "disk_warning"
  const DiskOverload := "disk_overload"
  const DiskCritical := "disk_critical"
  const CriticalOverload := "critical_overload"
  const OverloadSeverity := "overload_severity"

  const LabelColumns := {MemoryWarning, MemoryOverload, MemoryCritical, CpuWarning, CpuOverload, CpuCritical,
                         DiskWarning, DiskOverload, DiskCritical, CriticalOverload, OverloadSeverity}

  /** The three flags of one resource on one row. */
  datatype Tiers = Tiers(warning: bool, overload: bool, critical: bool)

  /** `(df[usage] > t).astype(int)` on one cell when the column exists, the constant 0 when it does not.
      A NaN usage compares false. */
  predicate Exceeds(present: bool, usage: Num, t: real)
  {
    present && Gt(usage, t)
  }

  function TiersOf(present: bool, usage: Num, l: Levels): Tiers
  {
    Tiers(Exceeds(present, usage, l.warning), Exceeds(present, usage, l.overload), Exceeds(present, usage, l.critical))
  }

  /** The flags of resource `u` (a usage column) on row `i` of `df`. */
  function RowTiers(df: Frame, i: nat, u: string, l: Levels): Tiers
    requires i < |df.rows|
  {
    TiersOf(Has(df, u), Column(df, u)[i], l)
  }

  /** The flags of resource `u` on every row of `df`. */
  function ResourceTiers(df: Frame, u: string, l: Levels): (ts: seq<Tiers>)
    ensures |ts| == |df.rows|
    ensures forall i :: 0 <= i < |df.rows| ==> ts[i] == RowTiers(df, i, u, l)
  {
    seq(|df.rows|, i requires 0 <= i < |df.rows| => RowTiers(df, i, u, l))
  }

  function Max(a: nat, b: nat): nat { if a < b then b else a }

  /** The highest tier flagged for one resource: warning 1, overload 2, critical 3, none 0. */
  function Tier(t: Tiers): nat
  {
    Max(if t.warning then 1 else 0, Max(if t.overload then 2 else 0, if t.critical then 3 else 0))
  }

  /** The highest tier flagged over the three resources. */
  function Highest(m: Tiers, c: Tiers, d: Tiers): nat
  {
    Max(Tier(m), Max(Tier(c), Tier(d)))
  }

  /** `df.loc[cond, 'overload_severity'] = v`: the rows selected by `cond` are overwritten. */
  method Overwrite(sev: seq<int>, cond: seq<bool>, v: int) returns (s: seq<int>)
    requires |cond| == |sev|
    ensures |s| == |sev|
    ensures forall i :: 0 <= i < |s| ==> s[i] == if cond[i] then v else sev[i]
  {
    s := sev;
    for i := 0 to |sev|
      invariant |s| == |sev|
      invariant forall j :: 0 <= j < i ==> s[j] == if cond[j] then v else sev[j]
      invariant forall j :: i <= j < |s| ==> s[j] == sev[j]
    {
      if cond[i] {
        s := s[i := v];
      }
    }
  }

  /** The severity passes: 0 everywhere, then 1 where any warning flag is set, then 2 where any
      overload flag is, then 3 where any critical flag is. The last write wins, so every row
      ends with the highest tier any of its flags reached. */
  method AssignSeverity(m: seq<Tiers>, c: seq<Tiers>, d: seq<Tiers>) returns (sev: seq<int>)
    requires |m| == |c| == |d|
    ensures |sev| == |m|
    ensures forall i :: 0 <= i < |m| ==> sev[i] == Highest(m[i], c[i], d[i])
  {
    var n := |m|;
    var warn := seq(n, i requires 0 <= i < n => m[i].warning || c[i].warning || d[i].warning);
    var over := seq(n, i requires 0 <= i < n => m[i].overload || c[i].overload || d[i].overload);
    var crit := seq(n, i requires 0 <= i < n => m[i].critical || c[i].critical || d[i].critical);
    sev := seq(n, i => 0);
    sev := Overwrite(sev, warn, 1);
    sev := Overwrite(sev, over, 2);
    sev := Overwrite(sev, crit, 3);
  }

  /** One flag rule of the label stage. The presence test of the usage column is taken from the
      frame the stage starts from, as the source's `if ... in df.columns` is. */
  function FlagRule(present: bool, u: string, t: real, target: string): Rule
  {
    Rule([], [u], target, (x: Row) => Flag(Exceeds(present, NumAt(x, u), t)))
  }

  const FlagNames := [MemoryWarning, MemoryOverload, MemoryCritical, CpuWarning, CpuOverload, CpuCritical,
                      DiskWarning, DiskOverload, DiskCritical]

  /** The usage column the `k`-th flag reads. */
  function UsageOf(k: nat): string
  {
    if k < 3 then MemoryUsagePct else if k < 6 then CpuUsagePct else DiskUsagePct
  }

  /** The threshold the `k`-th flag compares with. */
  function ThresholdOf(th: ThresholdConfig, k: nat): real
  {
    var l := if k < 3 then th.memory else if k < 6 then th.cpu else th.disk;
    var j := k % 3;
    if j == 0 then l.warning else if j == 1 then l.overload else l.critical
  }

  /** The nine flag assignments, memory then CPU then disk, each warning, overload, critical. */
  function FlagRules(df: Frame, th: ThresholdConfig): (rules: seq<Rule>)
    ensures |rules| == 9
    ensures forall k :: 0 <= k < 9 ==> rules[k] == FlagRule(Has(df, UsageOf(k)), UsageOf(k), ThresholdOf(th, k), FlagNames[k])
  {
    seq(9, k requires 0 <= k < 9 => FlagRule(Has(df, UsageOf(k)), UsageOf(k), ThresholdOf(th, k), FlagNames[k]))
  }

  lemma FlagRuleReads(present: bool, u: string, t: real, target: string)
    ensures ReadsOnly(FlagRule(present, u, t, target).g, [u])
  {
    ReadsOne(FlagRule(present, u, t, target).g, u);
  }

  lemma FlagNamesDistinct()
    ensures forall a, b :: 0 <= a < b < 9 ==> FlagNames[a] != FlagNames[b]
  {
  }

  lemma FlagRulesIndependent(df: Frame, th: ThresholdConfig)
    ensures Independent(FlagRules(df, th))
  {
    var rules := FlagRules(df, th);
    FlagNamesDistinct();
    assert Targets(rules) == set k | 0 <= k < 9 :: FlagNames[k];
    forall a | 0 <= a < 9
      ensures Untouched(rules[a].guard, Targets(rules)) && Untouched(rules[a].inputs, Targets(rules))
      ensures ReadsOnly(rules[a].g, rules[a].inputs)
    {
      var u := UsageOf(a);
      assert forall k :: 0 <= k < 9 ==> |FlagNames[k]| < 16;
      assert |u| > 16;
      assert u !in Targets(rules);
      FlagRuleReads(Has(df, u), u, ThresholdOf(th, a), FlagNames[a]);
    }
  }

  /** Row `i` of `r` carries the nine flags computed from the usage columns of `df`. */
  ghost predicate FlagsAt(df: Frame, r: Frame, th: ThresholdConfig, i: nat)
    requires i < |df.rows| && |Keys(r)| == |Keys(df)|
  {
    var tm := RowTiers(df, i, MemoryUsagePct, th.memory);
    var tc := RowTiers(df, i, CpuUsagePct, th.cpu);
    var td := RowTiers(df, i, DiskUsagePct, th.disk);
    Column(r, MemoryWarning)[i] == Flag(tm.warning)
    && Column(r, MemoryOverload)[i] == Flag(tm.overload)
    && Column(r, MemoryCritical)[i] == Flag(tm.critical)
    && Column(r, CpuWarning)[i] == Flag(tc.warning)
    && Column(r, CpuOverload)[i] == Flag(tc.overload)
    && Column(r, CpuCritical)[i] == Flag(tc.critical)
    && Column(r, DiskWarning)[i] == Flag(td.warning)
    && Column(r, DiskOverload)[i] == Flag(td.overload)
    && Column(r, DiskCritical)[i] == Flag(td.critical)
  }

  ghost predicate FlagsLabelled(df: Frame, r: Frame, th: ThresholdConfig)
  {
    |Keys(r)| == |Keys(df)| && forall i :: 0 <= i < |df.rows| ==> FlagsAt(df, r, th, i)
  }

  /** Row `i` of `r` carries every label computed from the usage columns of `df`. */
  ghost predicate Labelled(df: Frame, r: Frame, th: ThresholdConfig, i: nat)
    requires i < |df.rows| && |Keys(r)| == |Keys(df)|
  {
    var tm := RowTiers(df, i, MemoryUsagePct, th.memory);
    var tc := RowTiers(df, i, CpuUsagePct, th.cpu);
    var td := RowTiers(df, i, DiskUsagePct, th.disk);
    FlagsAt(df, r, th, i)
    && Column(r, CriticalOverload)[i] == Flag(tm.critical || tc.critical || td.critical)
    && Column(r, OverloadSeverity)[i] == Fin(Highest(tm, tc, td) as real)
  }

  /** After the flag stage, flag `k` holds the strict comparison of its usage column of `df`. */
  lemma FlagStage(df: Frame, r1: Frame, th: ThresholdConfig)
    requires Keys(r1) == Keys(df)
    requires forall k :: 0 <= k < 9 ==> DerivedAs(df, r1, [], FlagNames[k], FlagRules(df, th)[k].g)
    ensures forall k, i :: 0 <= k < 9 && 0 <= i < |df.rows| ==>
              Has(r1, FlagNames[k])
              && Column(r1, FlagNames[k])[i] == Flag(Exceeds(Has(df, UsageOf(k)), Column(df, UsageOf(k))[i], ThresholdOf(th, k)))
  {
    var rules := FlagRules(df, th);
    forall k, i | 0 <= k < 9 && 0 <= i < |df.rows|
      ensures Has(r1, FlagNames[k])
      ensures Column(r1, FlagNames[k])[i] == Flag(Exceeds(Has(df, UsageOf(k)), Column(df, UsageOf(k))[i], ThresholdOf(th, k)))
    {
      assert HasAll(df, rules[k].guard);
      assert Column(r1, FlagNames[k]) == Map(df, rules[k].g);
      assert Map(df, rules[k].g)[i] == rules[k].g(df.rows[i]);
    }
  }

  /** `df[w] == 1`, `df[o] == 1`, `df[c] == 1` of one resource, row by row. */
  function ReadTiers(f: Frame, w: string, o: string, c: string): (ts: seq<Tiers>)
    ensures |ts| == |f.rows|
  {
    seq(|f.rows|, i requires 0 <= i < |f.rows| =>
      Tiers(Column(f, w)[i] == Fin(1.0), Column(f, o)[i] == Fin(1.0), Column(f, c)[i] == Fin(1.0)))
  }

  /** Flag `k` of row `i` in terms of the resource tiers. */
  lemma FlagOfTier(df: Frame, r1: Frame, th: ThresholdConfig, k: nat, i: nat, l: Levels)
    requires k < 9 && i < |df.rows| && |Keys(r1)| == |Keys(df)|
    requires l == if k < 3 then th.memory else if k < 6 then th.cpu else th.disk
    requires Column(r1, FlagNames[k])[i] == Flag(Exceeds(Has(df, UsageOf(k)), Column(df, UsageOf(k))[i], ThresholdOf(th, k)))
    ensures var t := RowTiers(df, i, UsageOf(k), l);
            Column(r1, FlagNames[k])[i] == Flag(if k % 3 == 0 then t.warning else if k % 3 == 1 then t.overload else t.critical)
  {
  }

  lemma FlagsFromStage(df: Frame, r1: Frame, th: ThresholdConfig)
    requires Keys(r1) == Keys(df)
    requires forall k, i :: 0 <= k < 9 && 0 <= i < |df.rows| ==>
              Column(r1, FlagNames[k])[i] == Flag(Exceeds(Has(df, UsageOf(k)), Column(df, UsageOf(k))[i], ThresholdOf(th, k)))
    ensures FlagsLabelled(df, r1, th)
  {
    forall i | 0 <= i < |df.rows| ensures FlagsAt(df, r1, th, i) {
      FlagOfTier(df, r1, th, 0, i, th.memory);
      FlagOfTier(df, r1, th, 1, i, th.memory);
      FlagOfTier(df, r1, th, 2, i, th.memory);
      FlagOfTier(df, r1, th, 3, i, th.cpu);
      FlagOfTier(df, r1, th, 4, i, th.cpu);
      FlagOfTier(df, r1, th, 5, i, th.cpu);
      FlagOfTier(df, r1, th, 6, i, th.disk);
      FlagOfTier(df, r1, th, 7, i, th.disk);
      FlagOfTier(df, r1, th, 8, i, th.disk);
      assert UsageOf(0) == MemoryUsagePct && UsageOf(3) == CpuUsagePct && UsageOf(6) == DiskUsagePct;
      assert FlagNames[0] == MemoryWarning && FlagNames[1] == MemoryOverload && FlagNames[2] == MemoryCritical;
      assert FlagNames[3] == CpuWarning && FlagNames[4] == CpuOverload && FlagNames[5] == CpuCritical;
      assert FlagNames[6] == DiskWarning && FlagNames[7] == DiskOverload && FlagNames[8] == DiskCritical;
      var tm := RowTiers(df, i, UsageOf(0), th.memory);
      assert Column(r1, FlagNames[0])[i] == Flag(tm.warning);
      assert Column(r1, MemoryWarning)[i] == Flag(tm.warning);
      assert Column(r1, MemoryWarning)[i] == Flag(RowTiers(df, i, MemoryUsagePct, th.memory).warning);
    }
  }

  method FlagStep(df: Frame, th: ThresholdConfig) returns (r1: Frame)
    ensures Agree(df, r1, set k | 0 <= k < 9 :: FlagNames[k])
    ensures forall k :: 0 <= k < 9 ==> Has(r1, FlagNames[k])
    ensures FlagsLabelled(df, r1, th)
  {
    var rules := FlagRules(df, th);
    FlagRulesIndependent(df, th);
    r1 := ApplyRules(df, rules);
    assert Targets(rules) == set k | 0 <= k < 9 :: FlagNames[k];
    FlagStage(df, r1, th);
    FlagsFromStage(df, r1, th);
  }

  /** The flags survive a later step that writes none of them. */
  lemma FlagsKept(df: Frame, r1: Frame, r2: Frame, th: ThresholdConfig, c: string)
    requires FlagsLabelled(df, r1, th) && Agree(r1, r2, {c})
    requires forall k :: 0 <= k < 9 ==> FlagNames[k] != c
    ensures FlagsLabelled(df, r2, th)
  {
    assert FlagNames[0] != c && FlagNames[1] != c && FlagNames[2] != c;
    assert FlagNames[3] != c && FlagNames[4] != c && FlagNames[5] != c;
    assert FlagNames[6] != c && FlagNames[7] != c && FlagNames[8] != c;
    forall i | 0 <= i < |df.rows| ensures FlagsAt(df, r2, th, i) {
      assert FlagsAt(df, r1, th, i);
    }
  }

  /** `df[w] == 1` on the flags written from `df` gives back the tiers. */
  lemma TiersRead(df: Frame, r: Frame, th: ThresholdConfig)
    requires FlagsLabelled(df, r, th)
    ensures ReadTiers(r, MemoryWarning, MemoryOverload, MemoryCritical) == ResourceTiers(df, MemoryUsagePct, th.memory)
    ensures ReadTiers(r, CpuWarning, CpuOverload, CpuCritical) == ResourceTiers(df, CpuUsagePct, th.cpu)
    ensures ReadTiers(r, DiskWarning, DiskOverload, DiskCritical) == ResourceTiers(df, DiskUsagePct, th.disk)
  {
    forall i | 0 <= i < |df.rows|
      ensures ReadTiers(r, MemoryWarning, MemoryOverload, MemoryCritical)[i] == ResourceTiers(df, MemoryUsagePct, th.memory)[i]
      ensures ReadTiers(r, CpuWarning, CpuOverload, CpuCritical)[i] == ResourceTiers(df, CpuUsagePct, th.cpu)[i]
      ensures ReadTiers(r, DiskWarning, DiskOverload, DiskCritical)[i] == ResourceTiers(df, DiskUsagePct, th.disk)[i]
    {
      assert FlagsAt(df, r, th, i);
    }
  }

  /** `df['critical_overload'] = (memory_critical == 1) | (cpu_critical == 1) | (disk_critical == 1)`. */
  method CriticalStep(df: Frame, r1: Frame, th: ThresholdConfig) returns (r2: Frame)
    requires FlagsLabelled(df, r1, th)
    ensures Agree(r1, r2, {CriticalOverload}) && Has(r2, CriticalOverload) && FlagsLabelled(df, r2, th)
    ensures forall i :: 0 <= i < |df.rows| ==>
              Column(r2, CriticalOverload)[i]
              == Flag(RowTiers(df, i, MemoryUsagePct, th.memory).critical || RowTiers(df, i, CpuUsagePct, th.cpu).critical
                      || RowTiers(df, i, DiskUsagePct, th.disk).critical)
  {
    var n := |r1.rows|;
    var m := ReadTiers(r1, MemoryWarning, MemoryOverload, MemoryCritical);
    var c := ReadTiers(r1, CpuWarning, CpuOverload, CpuCritical);
    var d := ReadTiers(r1, DiskWarning, DiskOverload, DiskCritical);
    var crit := seq(n, i requires 0 <= i < n => Flag(m[i].critical || c[i].critical || d[i].critical));
    r2 := SetNumbers(r1, CriticalOverload, crit);
    FlagsKept(df, r1, r2, th, CriticalOverload);
    TiersRead(df, r1, th);
  }

  /** `overload_severity`: the overwrite passes over the flags read back from the frame. */
  method SeverityStep(df: Frame, r2: Frame, th: ThresholdConfig) returns (r: Frame)
    requires FlagsLabelled(df, r2, th)
    ensures Agree(r2, r, {OverloadSeverity}) && Has(r, OverloadSeverity) && FlagsLabelled(df, r, th)
    ensures forall i :: 0 <= i < |df.rows| ==>
              Column(r, OverloadSeverity)[i]
              == Fin(Highest(RowTiers(df, i, MemoryUsagePct, th.memory), RowTiers(df, i, CpuUsagePct, th.cpu),
                             RowTiers(df, i, DiskUsagePct, th.disk)) as real)
  {
    var n := |r2.rows|;
    var m := ReadTiers(r2, MemoryWarning, MemoryOverload, MemoryCritical);
    var c := ReadTiers(r2, CpuWarning, CpuOverload, CpuCritical);
    var d := ReadTiers(r2, DiskWarning, DiskOverload, DiskCritical);
    var sev := AssignSeverity(m, c, d);
    r := SetNumbers(r2, OverloadSeverity, seq(n, i requires 0 <= i < n => Fin(sev[i] as real)));
    FlagsKept(df, r2, r, th, OverloadSeverity);
    TiersRead(df, r2, th);
  }

  lemma FlagSetLiteral()
    ensures (set k | 0 <= k < 9 :: FlagNames[k]) + {CriticalOverload} + {OverloadSeverity} == LabelColumns
  {
    var fs := set k | 0 <= k < 9 :: FlagNames[k];
    assert FlagNames[0] in fs && FlagNames[1] in fs && FlagNames[2] in fs;
    assert FlagNames[3] in fs && FlagNames[4] in fs && FlagNames[5] in fs;
    assert FlagNames[6] in fs && FlagNames[7] in fs && FlagNames[8] in fs;
  }

  /** `_create_target_labels`. */
  method CreateTargetLabels(df: Frame, th: ThresholdConfig) returns (r: Frame)
    ensures Agree(df, r, LabelColumns)
    ensures forall c :: c in LabelColumns ==> Has(r, c)
    ensures forall i :: 0 <= i < |df.rows| ==> Labelled(df, r, th, i)
  {
    var r1 := FlagStep(df, th);
    var r2 := CriticalStep(df, r1, th);
    r := SeverityStep(df, r2, th);
    AgreeTrans(df, r1, r2, set k | 0 <= k < 9 :: FlagNames[k], {CriticalOverload});
    AgreeTrans(df, r2, r, (set k | 0 <= k < 9 :: FlagNames[k]) + {CriticalOverload}, {OverloadSeverity});
    FlagSetLiteral();
    assert Column(r, CriticalOverload) == Column(r2, CriticalOverload);
    forall i | 0 <= i < |df.rows| ensures Labelled(df, r, th, i) {
      assert FlagsAt(df, r, th, i);
    }
  }

  // Properties of the labels.

  /** With ordered thresholds the flags of one resource are nested, and its tier is the number of
      thresholds its usage exceeds. */
  lemma TiersNested(present: bool, usage: Num, l: Levels)
    requires ValidLevels(l)
    ensures var t := TiersOf(present, usage, l);
            (t.critical ==> t.overload) && (t.overload ==> t.warning)
            && Tier(t) == (if t.critical then 3 else if t.overload then 2 else if t.warning then 1 else 0)
  {
  }

  /** A usage equal to a threshold does not reach it: the comparison is strict. */
  lemma StrictThreshold(t: real)
    ensures !Exceeds(true, Fin(t), t)
  {
  }

  /** Without its usage column a resource raises no flag, whatever its cells hold. */
  lemma AbsentUsageRaisesNothing(df: Frame, i: nat, u: string, l: Levels)
    requires i < |df.rows| && !Has(df, u)
    ensures RowTiers(df, i, u, l) == Tiers(false, false, false) && Tier(RowTiers(df, i, u, l)) == 0
  {
  }

  /** The severity is the last overwrite that applies: 3 exactly when a critical flag is set, at
      least 2 exactly when an overload or critical flag is, at least 1 exactly when any flag is. */
  lemma SeverityTiers(m: Tiers, c: Tiers, d: Tiers)
    ensures Highest(m, c, d) <= 3
    ensures Highest(m, c, d) == 3 <==> m.critical || c.critical || d.critical
    ensures Highest(m, c, d) >= 2 <==> m.critical || c.critical || d.critical || m.overload || c.overload || d.overload
    ensures Highest(m, c, d) >= 1 <==> m.critical || c.critical || d.critical || m.overload || c.overload || d.overload
                                       || m.warning || c.warning || d.warning
  {
  }

  /** On a labelled row, `overload_severity == 3` exactly when `critical_overload == 1`. */
  lemma CriticalMeansSeverityThree(df: Frame, r: Frame, th: ThresholdConfig, i: nat)
    requires i < |df.rows| && |Keys(r)| == |Keys(df)| && Labelled(df, r, th, i)
    ensures Column(r, OverloadSeverity)[i] == Fin(3.0) <==> Column(r, CriticalOverload)[i] == Fin(1.0)
  {
    var tm := RowTiers(df, i, MemoryUsagePct, th.memory);
    var tc := RowTiers(df, i, CpuUsagePct, th.cpu);
    var td := RowTiers(df, i, DiskUsagePct, th.disk);
    SeverityTiers(tm, tc, td);
  }

  /** A row at 80% memory (CPU and disk at 10%) under the collection system's defaults: the
      memory warning fires, the overload at 80 does not, and the severity is 1. */
  lemma EightyPercentMemory()
    ensures var th := ColetaDefaults();
            var tm := TiersOf(true, Fin(80.0), th.memory);
            var tc := TiersOf(true, Fin(10.0), th.cpu);
            var td := TiersOf(true, Fin(10.0), th.disk);
            tm == Tiers(true, false, false) && Highest(tm, tc, td) == 1
  {
  }

  /** Every label of a labelled row is a number: the labels never leave a gap. */
  lemma LabelledFinite(df: Frame, r: Frame, th: ThresholdConfig, i: nat)
    requires i < |df.rows| && |Keys(r)| == |Keys(df)| && Labelled(df, r, th, i)
    ensures forall c :: c in LabelColumns ==> Column(r, c)[i].Fin?
  {
    assert FlagsAt(df, r, th, i);
  }
}
