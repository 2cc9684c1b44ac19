// The stat extractors of the cAdvisor REST client
// (apps/cadvisor-metrics-collector/src/cadvisor_client.py): the container-name fallback
// chain, the fixed-key CPU and memory records, the network and filesystem totals, and
// the skip rules of a single snapshot. Responses are JSON values passed in.
module CadvisorClient {
  import opened Wrappers
  import opened Strings
  import opened JsonValues

  // ---------------------------------------------------------------- names

  /** `last` ends `s`, and is all of it or preceded by `c`. */
  predicate EndsAfter(s: string, last: string, c: char)
  {
    |last| <= |s| && (forall i :: 0 <= i < |last| ==> s[|s| - |last| + i] == last[i]) &&
    (|last| < |s| ==> s[|s| - |last| - 1] == c)
  }

  /** What follows the last `c` in `s`, or all of `s` without one. */
  function AfterLast(s: string, c: char): string
    decreases |s|
  {
    match IndexOf(s, c)
    case None => s
    case Some(k) => AfterLast(s[k + 1..], c)
  }

  /** The last piece of `s.split(c)` is what follows the last `c`. */
  lemma {:induction false} SplitLast(s: string, c: char)
    ensures Split(s, c)[|Split(s, c)| - 1] == AfterLast(s, c)
    decreases |s|
  {
    match IndexOf(s, c)
    case None =>
      SplitLastNone(s, c);
    case Some(k) =>
      SplitLast(s[k + 1..], c);
      SplitLastStep(s, c, k);
  }

  lemma SplitLastNone(s: string, c: char)
    requires IndexOf(s, c).None?
    ensures Split(s, c)[|Split(s, c)| - 1] == AfterLast(s, c)
  {
    assert Split(s, c) == [s];
  }

  lemma SplitLastStep(s: string, c: char, k: nat)
    requires IndexOf(s, c) == Some(k)
    requires Split(s[k + 1..], c)[|Split(s[k + 1..], c)| - 1] == AfterLast(s[k + 1..], c)
    ensures Split(s, c)[|Split(s, c)| - 1] == AfterLast(s, c)
  {
    LastAfterFirst(s, c, k);
  }

  /** What follows the last `c` ends `s`, and is all of it or preceded by `c`. */
  lemma {:induction false} AfterLastEnds(s: string, c: char)
    ensures EndsAfter(s, AfterLast(s, c), c)
    decreases |s|
  {
    match IndexOf(s, c)
    case None =>
    case Some(k) =>
      AfterLastEnds(s[k + 1..], c);
      AfterLastStep(s, c, k);
  }

  lemma AfterLastStep(s: string, c: char, k: nat)
    requires IndexOf(s, c) == Some(k)
    requires EndsAfter(s[k + 1..], AfterLast(s[k + 1..], c), c)
    ensures EndsAfter(s, AfterLast(s, c), c)
  {
    assert AfterLast(s, c) == AfterLast(s[k + 1..], c);
    SuffixOfRest(s, c, k, s[k + 1..], AfterLast(s[k + 1..], c));
  }

  /** A suffix of what follows a `c` at `k` is a suffix of `s`, preceded by `c` at worst. */
  lemma SuffixOfRest(s: string, c: char, k: nat, rest: string, last: string)
    requires k < |s|
    requires s[k] == c
    requires rest == s[k + 1..]
    requires EndsAfter(rest, last, c)
    ensures EndsAfter(s, last, c)
  {
  }

  /** The last-segment fallback: `path.strip('/').split('/')[-1]`, or `root` when that is empty. */
  function PathName(path: string): (r: string)
    ensures r != [] && NoChar(r, '/')
  {
    var parts := Split(StripChar(path, '/'), '/');
    SplitPieces(StripChar(path, '/'), '/');
    var clean := parts[|parts| - 1];
    if clean != [] then clean else "root"
  }

  /** The segment is the end of the path with its slashes trimmed, preceded by a slash unless
      it is all of it; it is `root` only for a path made of slashes or a segment named so. */
  lemma PathNameSegment(path: string)
    ensures var t := StripChar(path, '/');
      var r := PathName(path);
      (t == [] ==> r == "root") &&
      (t != [] ==> |r| <= |t| && t[|t| - |r|..] == r && (|r| < |t| ==> t[|t| - |r| - 1] == '/'))
  {
    var t := StripChar(path, '/');
    var parts := Split(t, '/');
    SplitLast(t, '/');
    if t == [] {
      assert parts == [[]];
    } else {
      var last := AfterLast(t, '/');
      AfterLastEnds(t, '/');
      NonEmptyEnd(t, last);
      PathNameLast(path, last);
      SegmentEnds(t, PathName(path));
    }
  }

  /** The last piece of a path without a trailing slash is not empty. */
  lemma NonEmptyEnd(t: string, last: string)
    requires t != [] && t[|t| - 1] != '/'
    requires EndsAfter(t, last, '/')
    ensures last != []
  {
  }

  /** A piece that ends a path, preceded by a slash unless it is all of it. */
  lemma SegmentEnds(t: string, r: string)
    requires EndsAfter(t, r, '/')
    ensures |r| <= |t| && t[|t| - |r|..] == r && (|r| < |t| ==> t[|t| - |r| - 1] == '/')
  {
    assert t[|t| - |r|..] == r;
  }

  /** The segment is the last piece whenever that is not empty. */
  lemma PathNameLast(path: string, last: string)
    requires last != []
    requires Split(StripChar(path, '/'), '/')[|Split(StripChar(path, '/'), '/')| - 1] == last
    ensures PathName(path) == last
  {
  }

  /** The label keys tried for a name, in order. */
  const NameLabelKeys: seq<string> := ["io.kubernetes.pod.name", "io.kubernetes.container.name", "name"]

  /** The label `key` is present and truthy. */
  predicate Hit(labels: seq<(string, Json)>, key: string)
  {
    HasKey(labels, key) && Truthy(Lookup(labels, key).value)
  }

  /** `keys[i]` is the first of `keys` whose label is present and truthy. */
  predicate FirstHitAt(labels: seq<(string, Json)>, keys: seq<string>, i: int)
  {
    0 <= i < |keys| && Hit(labels, keys[i]) && forall j :: 0 <= j < i ==> !Hit(labels, keys[j])
  }

  lemma FirstHitLater(labels: seq<(string, Json)>, keys: seq<string>, i: int)
    requires keys != [] && !Hit(labels, keys[0]) && FirstHitAt(labels, keys[1..], i)
    ensures FirstHitAt(labels, keys, i + 1) && keys[i + 1] == keys[1..][i]
  {
    forall j | 0 <= j < i + 1 ensures !Hit(labels, keys[j]) {
      if j > 0 {
        assert keys[j] == keys[1..][j - 1];
      }
    }
  }

  /** The first of `keys` whose label is present and truthy. */
  function FirstLabel(labels: seq<(string, Json)>, keys: seq<string>): (r: Option<Json>)
    ensures r.None? <==> forall i :: 0 <= i < |keys| ==> !Hit(labels, keys[i])
    ensures r.Some? ==> exists i :: FirstHitAt(labels, keys, i) && r == Lookup(labels, keys[i])
  {
    if keys == [] then None
    else if Hit(labels, keys[0]) then
      assert FirstHitAt(labels, keys, 0);
      Lookup(labels, keys[0])
    else
      var r := FirstLabel(labels, keys[1..]);
      assert forall i :: 1 <= i < |keys| ==> keys[i] == keys[1..][i - 1];
      if r.Some? then
        var i :| FirstHitAt(labels, keys[1..], i) && r == Lookup(labels, keys[1..][i]);
        FirstHitLater(labels, keys, i);
        r
      else
        r
  }

  /** The labels of `spec`, when `spec` is a dict holding a `labels` dict. */
  function SpecLabels(info: seq<(string, Json)>): Option<seq<(string, Json)>>
  {
    var spec := Get(info, "spec", JObj([]));
    if spec.JObj? && HasKey(spec.fields, "labels") && Lookup(spec.fields, "labels").value.JObj?
    then Some(Lookup(spec.fields, "labels").value.fields)
    else None
  }

  /** `_extract_container_name`: the value `str()` is applied to. */
  function ExtractContainerName(path: string, info: Json): (r: Json)
    ensures !info.JObj? ==> r == JStr("unknown")
    ensures info.JObj? && SpecLabels(info.fields).Some? && FirstLabel(SpecLabels(info.fields).value, NameLabelKeys).Some? ==>
      r == FirstLabel(SpecLabels(info.fields).value, NameLabelKeys).value
    ensures info.JObj? && (SpecLabels(info.fields).None? || FirstLabel(SpecLabels(info.fields).value, NameLabelKeys).None?) ==>
      var name := Get(info.fields, "name", JStr(""));
      (Truthy(name) && name != JStr("unknown") ==> r == name) &&
      (!(Truthy(name) && name != JStr("unknown")) && path != "" && path != "/" ==> r == JStr(PathName(path))) &&
      (!(Truthy(name) && name != JStr("unknown")) && (path == "" || path == "/") ==> r == JStr("system"))
  {
    if !info.JObj? then JStr("unknown")
    else
      var labels := SpecLabels(info.fields);
      var found := if labels.Some? then FirstLabel(labels.value, NameLabelKeys) else None;
      if found.Some? then found.value
      else
        var name := Get(info.fields, "name", JStr(""));
        if Truthy(name) && name != JStr("unknown") then name
        else if path != "" && path != "/" then JStr(PathName(path))
        else JStr("system")
  }

  // ------------------------------------------------------ CPU and memory

  /** `d.get(k, {})` kept only when it is a dict, else `{}`. */
  function DictAt(fields: seq<(string, Json)>, k: string): (r: seq<(string, Json)>)
    ensures HasKey(fields, k) && Lookup(fields, k).value.JObj? ==> r == Lookup(fields, k).value.fields
    ensures !(HasKey(fields, k) && Lookup(fields, k).value.JObj?) ==> r == []
  {
    var v := Get(fields, k, JObj([]));
    if v.JObj? then v.fields else []
  }

  /** The five keys of `_extract_cpu_usage`, always all present. */
  datatype CpuUsage = CpuUsage(totalUsage: Json, usagePerCpu: seq<Json>, systemUsage: Json,
                               userUsage: Json, loadAverage: Json)

  const Zero: Json := JNum(0.0)

  /** `_extract_cpu_usage`; a `stats` that is not a dict raises inside the `try`, giving the
      zero record. */
  function ExtractCpuUsage(stats: Json): (r: CpuUsage)
    ensures !(stats.JObj? && Get(stats.fields, "cpu", JObj([])).JObj?) ==> r == CpuUsage(Zero, [], Zero, Zero, Zero)
    ensures stats.JObj? && Get(stats.fields, "cpu", JObj([])).JObj? ==>
      var cpu := Get(stats.fields, "cpu", JObj([])).fields;
      var usage := DictAt(cpu, "usage");
      (!HasKey(usage, "total") ==> r.totalUsage == Zero) &&
      (!HasKey(usage, "system") ==> r.systemUsage == Zero) &&
      (!HasKey(usage, "user") ==> r.userUsage == Zero) &&
      (!HasKey(cpu, "load_average") ==> r.loadAverage == Zero) &&
      (HasKey(usage, "total") ==> Some(r.totalUsage) == Lookup(usage, "total")) &&
      (HasKey(usage, "system") ==> Some(r.systemUsage) == Lookup(usage, "system")) &&
      (HasKey(usage, "user") ==> Some(r.userUsage) == Lookup(usage, "user")) &&
      (HasKey(cpu, "load_average") ==> Some(r.loadAverage) == Lookup(cpu, "load_average")) &&
      var perCpu := Lookup(usage, "per_cpu_usage");
      (perCpu.Some? && perCpu.value.JArr? ==> r.usagePerCpu == perCpu.value.items) &&
      (!(perCpu.Some? && perCpu.value.JArr?) ==> r.usagePerCpu == [])
    ensures r.usagePerCpu != [] ==>
      stats.JObj? && Lookup(DictAt(DictAt(stats.fields, "cpu"), "usage"), "per_cpu_usage") == Some(JArr(r.usagePerCpu))
  {
    if !stats.JObj? then CpuUsage(Zero, [], Zero, Zero, Zero)
    else
      var cpu := Get(stats.fields, "cpu", JObj([]));
      if !cpu.JObj? then CpuUsage(Zero, [], Zero, Zero, Zero)
      else
        var usage := DictAt(cpu.fields, "usage");
        var perCpu := Get(usage, "per_cpu_usage", JNull);
        CpuUsage(Get(usage, "total", Zero),
                 if perCpu.JArr? then perCpu.items else [],
                 Get(usage, "system", Zero), Get(usage, "user", Zero),
                 Get(cpu.fields, "load_average", Zero))
  }

  /** The seven keys of `_extract_memory_usage`, always all present. */
  datatype MemoryUsage = MemoryUsage(usage: Json, workingSet: Json, rss: Json, cache: Json,
                                     swap: Json, mappedFile: Json, failcnt: Json)

  const MemoryKeys: seq<string> := ["usage", "working_set", "rss", "cache", "swap", "mapped_file", "failcnt"]

  function MemoryValues(m: MemoryUsage): seq<Json>
  {
    [m.usage, m.workingSet, m.rss, m.cache, m.swap, m.mappedFile, m.failcnt]
  }

  /** `_extract_memory_usage` */
  function ExtractMemoryUsage(stats: Json): (r: MemoryUsage)
    ensures !(stats.JObj? && Get(stats.fields, "memory", JObj([])).JObj?) ==>
      forall i :: 0 <= i < 7 ==> MemoryValues(r)[i] == Zero
    ensures stats.JObj? && Get(stats.fields, "memory", JObj([])).JObj? ==>
      var memory := Get(stats.fields, "memory", JObj([])).fields;
      forall i :: 0 <= i < 7 ==>
        (HasKey(memory, MemoryKeys[i]) ==> Some(MemoryValues(r)[i]) == Lookup(memory, MemoryKeys[i])) &&
        (!HasKey(memory, MemoryKeys[i]) ==> MemoryValues(r)[i] == Zero)
  {
    if !stats.JObj? then MemoryUsage(Zero, Zero, Zero, Zero, Zero, Zero, Zero)
    else
      var memory := Get(stats.fields, "memory", JObj([]));
      if !memory.JObj? then MemoryUsage(Zero, Zero, Zero, Zero, Zero, Zero, Zero)
      else
        var m := memory.fields;
        var vals := seq(7, i requires 0 <= i < 7 => Get(m, MemoryKeys[i], Zero));
        var r := MemoryUsage(vals[0], vals[1], vals[2], vals[3], vals[4], vals[5], vals[6]);
        SevenValues(vals);
        GetsMean(m, MemoryKeys, vals);
        r
  }

  lemma SevenValues(v: seq<Json>)
    requires |v| == 7
    ensures MemoryValues(MemoryUsage(v[0], v[1], v[2], v[3], v[4], v[5], v[6])) == v
  {
  }

  /** Values read with `dict.get(key, 0)` are the stored ones, or `0` for the missing keys. */
  lemma GetsMean(m: seq<(string, Json)>, keys: seq<string>, vals: seq<Json>)
    requires |vals| == |keys|
    requires forall i :: 0 <= i < |keys| ==> vals[i] == Get(m, keys[i], Zero)
    ensures forall i :: 0 <= i < |keys| ==>
      (HasKey(m, keys[i]) ==> Some(vals[i]) == Lookup(m, keys[i])) &&
      (!HasKey(m, keys[i]) ==> vals[i] == Zero)
  {
  }

  // ------------------------------------------------------------- totals

  /** `list` kept only when it is a JSON array, else `[]`. */
  function ListOr(j: Json): seq<Json>
  {
    if j.JArr? then j.items else []
  }

  /** `0 + Σ item.get(key, 0)` over the dict items, `None` when an addition raises `TypeError`. */
  function Summed(items: seq<Json>, key: string): Option<real>
    decreases |items|
  {
    if items == [] then Some(0.0)
    else
      var prev := Summed(items[..|items| - 1], key);
      var it := items[|items| - 1];
      if !it.JObj? then prev
      else match (prev, AsNumber(Get(it.fields, key, Zero)))
        case (Some(a), Some(b)) => Some(a + b)
        case _ => None
  }

  function Dicts(items: seq<Json>): (r: seq<Json>)
    ensures forall i :: 0 <= i < |r| ==> r[i].JObj?
    decreases |items|
  {
    if items == [] then []
    else Dicts(items[..|items| - 1]) + (if items[|items| - 1].JObj? then [items[|items| - 1]] else [])
  }

  /** Entries that are not dicts contribute nothing to a total. */
  lemma {:induction false} SummedOverDicts(items: seq<Json>, key: string)
    ensures Summed(Dicts(items), key) == Summed(items, key)
    decreases |items|
  {
    if items != [] {
      var init := items[..|items| - 1];
      SummedOverDicts(init, key);
      var d := Dicts(items);
      if items[|items| - 1].JObj? {
        assert d == Dicts(init) + [items[|items| - 1]];
        assert d[..|d| - 1] == Dicts(init);
      } else {
        assert d == Dicts(init);
      }
    }
  }

  lemma SummedStep(items: seq<Json>, i: nat, key: string)
    requires i < |items|
    ensures Summed(items[..i + 1], key) ==
      if !items[i].JObj? then Summed(items[..i], key)
      else match (Summed(items[..i], key), AsNumber(Get(items[i].fields, key, Zero)))
        case (Some(a), Some(b)) => Some(a + b)
        case _ => None
  {
    assert items[..i + 1][..i] == items[..i];
  }

  lemma SummedAdd(items: seq<Json>, i: nat, key: string, a: real, b: real)
    requires i < |items| && items[i].JObj?
    requires Summed(items[..i], key) == Some(a) && AsNumber(Get(items[i].fields, key, Zero)) == Some(b)
    ensures Summed(items[..i + 1], key) == Some(a + b)
  {
    SummedStep(items, i, key);
  }

  /** A failed addition stays failed however many entries follow. */
  lemma {:induction false} SummedFails(items: seq<Json>, i: nat, key: string)
    requires i <= |items| && Summed(items[..i], key).None?
    ensures Summed(items, key).None?
    decreases |items| - i
  {
    if i < |items| {
      SummedStep(items, i, key);
      SummedFails(items, i + 1, key);
    } else {
      assert items[..i] == items;
    }
  }

  const NetKeys: seq<string> := ["rx_bytes", "tx_bytes", "rx_packets", "tx_packets", "rx_errors", "tx_errors"]

  lemma NetKeysDistinct()
    ensures forall a, b :: 0 <= a < b < |NetKeys| ==> NetKeys[a] != NetKeys[b]
  {
  }

  /** The inner loop: `totals[key] += fields.get(key, 0)` for each of `keys` in turn. */
  function AddKeys(totals: map<string, real>, fields: seq<(string, Json)>, keys: seq<string>): (r: Option<map<string, real>>)
    requires forall i :: 0 <= i < |keys| ==> keys[i] in totals
    ensures r.Some? ==> r.value.Keys == totals.Keys
    decreases |keys|
  {
    if keys == [] then Some(totals)
    else
      var k := keys[|keys| - 1];
      match AddKeys(totals, fields, keys[..|keys| - 1])
      case None => None
      case Some(t) =>
        match AsNumber(Get(fields, k, Zero))
        case None => None
        case Some(b) => Some(t[k := t[k] + b])
  }

  /** The outer loop: the inner loop over each dict item, starting from `zero`. */
  function Totals(items: seq<Json>, keys: seq<string>, zero: map<string, real>): (r: Option<map<string, real>>)
    requires forall i :: 0 <= i < |keys| ==> keys[i] in zero
    ensures r.Some? ==> r.value.Keys == zero.Keys
    decreases |items|
  {
    if items == [] then Some(zero)
    else
      var it := items[|items| - 1];
      match Totals(items[..|items| - 1], keys, zero)
      case None => None
      case Some(t) => if it.JObj? then AddKeys(t, it.fields, keys) else Some(t)
  }

  /** Adding distinct keys: it succeeds iff each value is a number, and each listed key grows
      by its value while every other key keeps its total. */
  lemma {:induction false} AddKeysMeaning(totals: map<string, real>, fields: seq<(string, Json)>, keys: seq<string>)
    requires forall i :: 0 <= i < |keys| ==> keys[i] in totals
    requires forall a, b :: 0 <= a < b < |keys| ==> keys[a] != keys[b]
    ensures AddKeys(totals, fields, keys).Some? <==>
      forall i :: 0 <= i < |keys| ==> AsNumber(Get(fields, keys[i], Zero)).Some?
    ensures AddKeys(totals, fields, keys).Some? ==>
      (forall i :: 0 <= i < |keys| ==>
         AddKeys(totals, fields, keys).value[keys[i]] == totals[keys[i]] + AsNumber(Get(fields, keys[i], Zero)).value) &&
      (forall k :: k in totals && k !in keys ==> AddKeys(totals, fields, keys).value[k] == totals[k])
    decreases |keys|
  {
    if keys != [] {
      var init := keys[..|keys| - 1];
      var k := keys[|keys| - 1];
      assert forall i :: 0 <= i < |init| ==> init[i] == keys[i];
      AddKeysMeaning(totals, fields, init);
      match AddKeys(totals, fields, init)
      case None =>
        var i :| 0 <= i < |init| && AsNumber(Get(fields, init[i], Zero)).None?;
        assert AsNumber(Get(fields, keys[i], Zero)).None?;
      case Some(t) =>
        match AsNumber(Get(fields, k, Zero))
        case None =>
          assert AsNumber(Get(fields, keys[|keys| - 1], Zero)).None?;
        case Some(b) =>
          AddKeysLast(totals, fields, keys, t, b);
          AddKeysGrow(totals, fields, keys, t, b);
    }
  }

  lemma AddKeysLast(totals: map<string, real>, fields: seq<(string, Json)>, keys: seq<string>, t: map<string, real>, b: real)
    requires keys != [] && forall i :: 0 <= i < |keys| ==> keys[i] in totals
    requires AddKeys(totals, fields, keys[..|keys| - 1]) == Some(t)
    requires AsNumber(Get(fields, keys[|keys| - 1], Zero)) == Some(b)
    ensures AddKeys(totals, fields, keys) == Some(t[keys[|keys| - 1] := t[keys[|keys| - 1]] + b])
  {
  }

  /** One more key: its total grows by its value and the others keep theirs. */
  lemma AddKeysGrow(totals: map<string, real>, fields: seq<(string, Json)>, keys: seq<string>, t: map<string, real>, b: real)
    requires keys != [] && forall i :: 0 <= i < |keys| ==> keys[i] in totals
    requires forall a, b :: 0 <= a < b < |keys| ==> keys[a] != keys[b]
    requires t.Keys == totals.Keys
    requires forall i :: 0 <= i < |keys| - 1 ==>
      AsNumber(Get(fields, keys[i], Zero)).Some? && t[keys[i]] == totals[keys[i]] + AsNumber(Get(fields, keys[i], Zero)).value
    requires forall x :: x in totals && x !in keys[..|keys| - 1] ==> t[x] == totals[x]
    requires AsNumber(Get(fields, keys[|keys| - 1], Zero)) == Some(b)
    ensures var k := keys[|keys| - 1];
      var r := t[k := t[k] + b];
      (forall i :: 0 <= i < |keys| ==>
         AsNumber(Get(fields, keys[i], Zero)).Some? && r[keys[i]] == totals[keys[i]] + AsNumber(Get(fields, keys[i], Zero)).value) &&
      (forall x :: x in totals && x !in keys ==> r[x] == totals[x])
  {
    var k := keys[|keys| - 1];
    var init := keys[..|keys| - 1];
    var r := t[k := t[k] + b];
    forall i | 0 <= i < |keys|
      ensures AsNumber(Get(fields, keys[i], Zero)).Some?
      ensures r[keys[i]] == totals[keys[i]] + AsNumber(Get(fields, keys[i], Zero)).value
    {
      if i < |init| {
        assert keys[i] != k;
      }
    }
    forall x | x in totals && x !in keys ensures r[x] == totals[x] {
      assert forall i :: 0 <= i < |init| ==> init[i] == keys[i];
      assert x !in init && x != k;
    }
  }

  /** The two loops compute, for each of distinct keys, its `Summed` total; they fail iff one
      sum raises. */
  lemma {:induction false} TotalsAreSums(items: seq<Json>, keys: seq<string>, zero: map<string, real>)
    requires forall i :: 0 <= i < |keys| ==> keys[i] in zero && zero[keys[i]] == 0.0
    requires forall a, b :: 0 <= a < b < |keys| ==> keys[a] != keys[b]
    ensures Totals(items, keys, zero).Some? <==> forall i :: 0 <= i < |keys| ==> Summed(items, keys[i]).Some?
    ensures Totals(items, keys, zero).Some? ==>
      forall i :: 0 <= i < |keys| ==> Totals(items, keys, zero).value[keys[i]] == Summed(items, keys[i]).value
    decreases |items|
  {
    if items != [] {
      var init := items[..|items| - 1];
      var it := items[|items| - 1];
      TotalsAreSums(init, keys, zero);
      match Totals(init, keys, zero)
      case None =>
        var i :| 0 <= i < |keys| && Summed(init, keys[i]).None?;
        assert Summed(items, keys[i]).None?;
      case Some(t) =>
        if it.JObj? {
          AddKeysMeaning(t, it.fields, keys);
        }
    }
  }

  /** `_extract_network_stats`: the six totals by key, and `interfaces_count`. */
  datatype NetworkStats = NetworkStats(totals: map<string, real>, interfacesCount: nat)

  function ZeroTotals(): (m: map<string, real>)
    ensures forall i :: 0 <= i < |NetKeys| ==> NetKeys[i] in m && m[NetKeys[i]] == 0.0
  {
    map k | k in NetKeys :: 0.0
  }

  function ZeroNetwork(): NetworkStats
  {
    NetworkStats(ZeroTotals(), 0)
  }

  /** The interface list: `network['interfaces']` when `network` is a dict and that is a list. */
  function Interfaces(stats: Json): seq<Json>
  {
    if stats.JObj? && Get(stats.fields, "network", JObj([])).JObj?
    then ListOr(Get(Get(stats.fields, "network", JObj([])).fields, "interfaces", JArr([])))
    else []
  }

  /** What the extractor reports: the loops' totals and the length of the whole list, or all
      zeros when `stats` or `network` is not a dict or an addition raises. */
  function NetworkOf(stats: Json): NetworkStats
  {
    var items := Interfaces(stats);
    if stats.JObj? && Get(stats.fields, "network", JObj([])).JObj? && Totals(items, NetKeys, ZeroTotals()).Some?
    then NetworkStats(Totals(items, NetKeys, ZeroTotals()).value, |items|)
    else ZeroNetwork()
  }

  /** The network record has the six keys; each is the sum of that key over the dict interfaces
      only, `interfaces_count` is the length of the whole list, and a non-dict `network` or a
      sum that raises gives all zeros. */
  lemma NetworkTotals(stats: Json)
    ensures NetworkOf(stats).totals.Keys == set k | k in NetKeys
    ensures var r := NetworkOf(stats);
      var ok := stats.JObj? && Get(stats.fields, "network", JObj([])).JObj? &&
                forall i :: 0 <= i < |NetKeys| ==> Summed(Interfaces(stats), NetKeys[i]).Some?;
      (ok ==> r.interfacesCount == |Interfaces(stats)| &&
              forall i :: 0 <= i < |NetKeys| ==>
                Summed(Dicts(Interfaces(stats)), NetKeys[i]) == Some(r.totals[NetKeys[i]])) &&
      (!ok ==> r == ZeroNetwork())
  {
    NetKeysDistinct();
    TotalsAreSums(Interfaces(stats), NetKeys, ZeroTotals());
    forall i | 0 <= i < |NetKeys| {
      SummedOverDicts(Interfaces(stats), NetKeys[i]);
    }
    assert ZeroTotals().Keys == set k | k in NetKeys;
  }

  lemma TotalsStep(items: seq<Json>, keys: seq<string>, zero: map<string, real>, i: nat)
    requires forall n :: 0 <= n < |keys| ==> keys[n] in zero
    requires i < |items|
    ensures Totals(items[..i + 1], keys, zero) ==
      match Totals(items[..i], keys, zero)
      case None => None
      case Some(t) => if items[i].JObj? then AddKeys(t, items[i].fields, keys) else Some(t)
  {
    assert items[..i + 1][..i] == items[..i];
  }

  lemma AddKeysStep(totals: map<string, real>, fields: seq<(string, Json)>, keys: seq<string>, j: nat)
    requires forall n :: 0 <= n < |keys| ==> keys[n] in totals
    requires j < |keys|
    ensures AddKeys(totals, fields, keys[..j + 1]) ==
      match AddKeys(totals, fields, keys[..j])
      case None => None
      case Some(t) =>
        match AsNumber(Get(fields, keys[j], Zero))
        case None => None
        case Some(b) => Some(t[keys[j] := t[keys[j]] + b])
  {
    assert keys[..j + 1][..j] == keys[..j];
  }

  lemma AddKeysOk(totals: map<string, real>, fields: seq<(string, Json)>, keys: seq<string>, j: nat,
                  t: map<string, real>, b: real)
    requires forall n :: 0 <= n < |keys| ==> keys[n] in totals
    requires j < |keys| && AddKeys(totals, fields, keys[..j]) == Some(t)
    requires AsNumber(Get(fields, keys[j], Zero)) == Some(b)
    ensures keys[j] in t && AddKeys(totals, fields, keys[..j + 1]) == Some(t[keys[j] := t[keys[j]] + b])
  {
    AddKeysStep(totals, fields, keys, j);
  }

  lemma TotalsOk(items: seq<Json>, keys: seq<string>, zero: map<string, real>, i: nat, t: map<string, real>)
    requires forall n :: 0 <= n < |keys| ==> keys[n] in zero
    requires i < |items| && Totals(items[..i], keys, zero) == Some(t)
    ensures forall n :: 0 <= n < |keys| ==> keys[n] in t
    ensures Totals(items[..i + 1], keys, zero) == if items[i].JObj? then AddKeys(t, items[i].fields, keys) else Some(t)
  {
    TotalsStep(items, keys, zero, i);
  }

  /** A failure of the inner loop is a failure of the whole. */
  lemma {:induction false} TotalsFail(items: seq<Json>, keys: seq<string>, zero: map<string, real>, i: nat)
    requires forall n :: 0 <= n < |keys| ==> keys[n] in zero
    requires i <= |items| && Totals(items[..i], keys, zero).None?
    ensures Totals(items, keys, zero).None?
    decreases |items| - i
  {
    if i < |items| {
      TotalsStep(items, keys, zero, i);
      TotalsFail(items, keys, zero, i + 1);
    } else {
      assert items[..i] == items;
    }
  }

  lemma {:induction false} AddKeysFail(totals: map<string, real>, fields: seq<(string, Json)>, keys: seq<string>, j: nat)
    requires forall n :: 0 <= n < |keys| ==> keys[n] in totals
    requires j <= |keys| && AddKeys(totals, fields, keys[..j]).None?
    ensures AddKeys(totals, fields, keys).None?
    decreases |keys| - j
  {
    if j < |keys| {
      AddKeysStep(totals, fields, keys, j);
      AddKeysFail(totals, fields, keys, j + 1);
    } else {
      assert keys[..j] == keys;
    }
  }

  lemma NetworkOfTotals(stats: Json, totals: Option<map<string, real>>)
    requires stats.JObj? && Get(stats.fields, "network", JObj([])).JObj?
    requires totals == Totals(Interfaces(stats), NetKeys, ZeroTotals())
    ensures NetworkOf(stats) == if totals.Some? then NetworkStats(totals.value, |Interfaces(stats)|) else ZeroNetwork()
  {
  }

  /** The inner loop of `_extract_network_stats` over one dict interface and the counter keys: `ok` is false when
      an addition raises. */
  method AddInterface(totals: map<string, real>, fields: seq<(string, Json)>, keys: seq<string>)
    returns (ok: bool, r: map<string, real>)
    requires forall n :: 0 <= n < |keys| ==> keys[n] in totals
    ensures ok <==> AddKeys(totals, fields, keys).Some?
    ensures ok ==> AddKeys(totals, fields, keys) == Some(r)
  {
    r := totals;
    assert keys[..0] == [];
    for j := 0 to |keys|
      invariant r.Keys == totals.Keys
      invariant AddKeys(totals, fields, keys[..j]) == Some(r)
    {
      var key := keys[j];
      var v := AsNumber(Get(fields, key, Zero));
      if v.None? {
        AddKeysStep(totals, fields, keys, j);
        AddKeysFail(totals, fields, keys, j + 1);
        return false, r;
      }
      AddKeysOk(totals, fields, keys, j, r, v.value);
      r := r[key := r[key] + v.value];
    }
    assert keys[..|keys|] == keys;
    ok := true;
  }

  /** `_extract_network_stats` */
  method ExtractNetworkStats(stats: Json) returns (r: NetworkStats)
    ensures r == NetworkOf(stats)
  {
    if !stats.JObj? {
      return ZeroNetwork();
    }
    var networkStats := Get(stats.fields, "network", JObj([]));
    if !networkStats.JObj? {
      return ZeroNetwork();
    }
    var interfaces := ListOr(Get(networkStats.fields, "interfaces", JArr([])));
    assert interfaces == Interfaces(stats);
    var totals := ZeroTotals();
    assert interfaces[..0] == [];
    for i := 0 to |interfaces|
      invariant Totals(interfaces[..i], NetKeys, ZeroTotals()) == Some(totals)
    {
      var iface := interfaces[i];
      TotalsOk(interfaces, NetKeys, ZeroTotals(), i, totals);
      if iface.JObj? {
        var ok, next := AddInterface(totals, iface.fields, NetKeys);
        if !ok {
          // `totals[key] += ...` raises; the handler returns the zero record
          TotalsFail(interfaces, NetKeys, ZeroTotals(), i + 1);
          NetworkOfTotals(stats, None);
          return ZeroNetwork();
        }
        totals := next;
      }
    }
    assert interfaces[..|interfaces|] == interfaces;
    NetworkOfTotals(stats, Some(totals));
    return NetworkStats(totals, |interfaces|);
  }

  // --------------------------------------------------------- filesystem

  /** `_extract_filesystem_stats`: three totals, the number of dict entries and the usage
      percentage. */
  datatype FilesystemStats = FilesystemStats(totalUsage: real, totalCapacity: real, totalAvailable: real,
                                             filesystemsCount: nat, usagePercentage: real)

  function ZeroFilesystem(): FilesystemStats
  {
    FilesystemStats(0.0, 0.0, 0.0, 0, 0.0)
  }

  /** The filesystem list: `stats['filesystem']` when that is a list. */
  function Filesystems(stats: Json): seq<Json>
  {
    if stats.JObj? then ListOr(Get(stats.fields, "filesystem", JArr([]))) else []
  }

  /** `usage / capacity * 100` when the capacity is positive, else 0. */
  function UsagePercentage(usage: real, capacity: real): (r: real)
    ensures capacity <= 0.0 ==> r == 0.0
    ensures capacity > 0.0 ==> r * capacity == usage * 100.0
    ensures capacity > 0.0 && 0.0 <= usage <= capacity ==> 0.0 <= r <= 100.0
  {
    if capacity > 0.0 then usage / capacity * 100.0 else 0.0
  }

  /** What the extractor reports, stated through the per-key sums: a `stats` that is not a dict
      or a sum that raises gives all zeros. */
  function FilesystemOf(stats: Json): FilesystemStats
  {
    var fs := Filesystems(stats);
    var u := Summed(fs, "usage");
    var c := Summed(fs, "capacity");
    var a := Summed(fs, "available");
    if stats.JObj? && u.Some? && c.Some? && a.Some?
    then FilesystemStats(u.value, c.value, a.value, |Dicts(fs)|, UsagePercentage(u.value, c.value))
    else ZeroFilesystem()
  }

  lemma DictsStep(items: seq<Json>, i: nat)
    requires i < |items|
    ensures Dicts(items[..i + 1]) == Dicts(items[..i]) + (if items[i].JObj? then [items[i]] else [])
  {
    assert items[..i + 1][..i] == items[..i];
  }

  /** `_extract_filesystem_stats` */
  method ExtractFilesystemStats(stats: Json) returns (r: FilesystemStats)
    ensures r == FilesystemOf(stats)
  {
    if !stats.JObj? {
      return ZeroFilesystem();
    }
    var fs := ListOr(Get(stats.fields, "filesystem", JArr([])));
    assert fs == Filesystems(stats);
    var usage, capacity, available, count := 0.0, 0.0, 0.0, 0;
    assert fs[..0] == [];
    for i := 0 to |fs|
      invariant Summed(fs[..i], "usage") == Some(usage)
      invariant Summed(fs[..i], "capacity") == Some(capacity)
      invariant Summed(fs[..i], "available") == Some(available)
      invariant count == |Dicts(fs[..i])|
    {
      DictsStep(fs, i);
      if fs[i].JObj? {
        var ok;
        ok, usage := AddField(fs, i, "usage", usage);
        if !ok {
          return ZeroFilesystem();
        }
        ok, capacity := AddField(fs, i, "capacity", capacity);
        if !ok {
          return ZeroFilesystem();
        }
        ok, available := AddField(fs, i, "available", available);
        if !ok {
          return ZeroFilesystem();
        }
        count := count + 1;
      } else {
        SummedStep(fs, i, "usage");
        SummedStep(fs, i, "capacity");
        SummedStep(fs, i, "available");
      }
    }
    assert fs[..|fs|] == fs;
    return FilesystemStats(usage, capacity, available, count, UsagePercentage(usage, capacity));
  }

  /** One `total += fs.get(key, 0)` of `_extract_filesystem_stats` on the dict entry `i`:
      `ok` is false when the addition raises, and then the whole sum fails. */
  method AddField(fs: seq<Json>, i: nat, key: string, total: real) returns (ok: bool, t: real)
    requires i < |fs| && fs[i].JObj? && Summed(fs[..i], key) == Some(total)
    ensures ok ==> Summed(fs[..i + 1], key) == Some(t)
    ensures !ok ==> Summed(fs, key).None?
  {
    SummedStep(fs, i, key);
    var v := AsNumber(Get(fs[i].fields, key, Zero));
    if v.None? {
      SummedFails(fs, i + 1, key);
      return false, total;
    }
    return true, total + v.value;
  }

  /** Only dict entries count, and the percentage is positive only over a positive capacity. */
  lemma FilesystemTotals(stats: Json)
    ensures var r := FilesystemOf(stats);
      var fs := Filesystems(stats);
      r.filesystemsCount <= |fs| &&
      (r != ZeroFilesystem() ==>
         Summed(Dicts(fs), "usage") == Some(r.totalUsage) &&
         Summed(Dicts(fs), "capacity") == Some(r.totalCapacity) &&
         Summed(Dicts(fs), "available") == Some(r.totalAvailable)) &&
      (r.usagePercentage != 0.0 ==> r.totalCapacity > 0.0)
  {
    var fs := Filesystems(stats);
    DictsLength(fs);
    SummedOverDicts(fs, "usage");
    SummedOverDicts(fs, "capacity");
    SummedOverDicts(fs, "available");
  }

  lemma {:induction false} DictsLength(items: seq<Json>)
    ensures |Dicts(items)| <= |items|
    decreases |items|
  {
    if items != [] {
      DictsLength(items[..|items| - 1]);
    }
  }

  // ----------------------------------------------------------- snapshot

  /** `get_containers_info(count)`: the query parameters sent, `{'count': count}` only for a
      positive count. */
  function ContainersParams(count: int): (r: seq<(string, int)>)
    ensures r != [] <==> count > 0
    ensures r != [] ==> r == [("count", count)]
  {
    if count > 0 then [("count", count)] else []
  }

  /** One entry of `collect_single_snapshot`; `collectedAt` is the clock reading passed in. */
  datatype Snapshot = Snapshot(collectedAt: string, statTimestamp: Json, containerPath: string,
                               containerName: Json, cpu: CpuUsage, memory: MemoryUsage,
                               network: NetworkStats, filesystem: FilesystemStats)

  /** The entry for one container, or `None` when it is skipped. */
  function SnapshotOf(path: string, info: Json, now: string): Option<Snapshot>
  {
    if !info.JObj? then None
    else
      var statsList := Get(info.fields, "stats", JArr([]));
      if !statsList.JArr? || statsList.items == [] then None
      else
        var latest := Last(statsList.items);
        if !latest.JObj? then None
        else Some(Entry(path, info, latest, now, NetworkOf(latest), FilesystemOf(latest)))
  }

  /** The entry built from the last stat, with the network and filesystem records given. */
  function Entry(path: string, info: Json, latest: Json, now: string,
                 network: NetworkStats, filesystem: FilesystemStats): Snapshot
  {
    Snapshot(now, if latest.JObj? then Get(latest.fields, "timestamp", JNull) else JNull, path,
             ExtractContainerName(path, info), ExtractCpuUsage(latest), ExtractMemoryUsage(latest), network, filesystem)
  }

  /** A container is skipped exactly when its info is not a dict, its `stats` is not a
      non-empty list or the last stat is not a dict; otherwise its entry is built from the
      last stat. */
  lemma SnapshotRules(path: string, info: Json, now: string)
    ensures SnapshotOf(path, info, now).None? <==>
      (!info.JObj? || !Get(info.fields, "stats", JArr([])).JArr? || Get(info.fields, "stats", JArr([])).items == [] ||
       !Last(Get(info.fields, "stats", JArr([])).items).JObj?)
    ensures SnapshotOf(path, info, now).Some? ==>
      var last := Last(Get(info.fields, "stats", JArr([])).items);
      SnapshotOf(path, info, now).value.containerPath == path && SnapshotOf(path, info, now).value.collectedAt == now &&
      SnapshotOf(path, info, now).value.containerName == ExtractContainerName(path, info) &&
      SnapshotOf(path, info, now).value.statTimestamp == Get(last.fields, "timestamp", JNull) &&
      SnapshotOf(path, info, now).value.cpu == ExtractCpuUsage(last) && SnapshotOf(path, info, now).value.memory == ExtractMemoryUsage(last) &&
      SnapshotOf(path, info, now).value.network == NetworkOf(last) && SnapshotOf(path, info, now).value.filesystem == FilesystemOf(last)
  {
  }

  function Last(items: seq<Json>): Json
    requires items != []
  {
    items[|items| - 1]
  }

  /** The per-container outcome, in dict order. */
  function Outcomes(containers: seq<(string, Json)>, now: string): (r: seq<Option<Snapshot>>)
    ensures |r| == |containers|
    ensures forall i :: 0 <= i < |r| ==> r[i] == SnapshotOf(containers[i].0, containers[i].1, now)
  {
    seq(|containers|, i requires 0 <= i < |containers| => SnapshotOf(containers[i].0, containers[i].1, now))
  }

  /** Every entry comes from a container that is not skipped, and every such container gives
      an entry. */
  lemma SnapshotsKept(containers: seq<(string, Json)>, now: string)
    ensures |Somes(Outcomes(containers, now))| <= |containers|
    ensures forall e :: e in Somes(Outcomes(containers, now)) <==>
      exists i :: 0 <= i < |containers| && SnapshotOf(containers[i].0, containers[i].1, now) == Some(e)
  {
    var xs := Outcomes(containers, now);
    SomesMembers(xs);
    forall e ensures Some(e) in xs <==> exists i :: 0 <= i < |containers| && SnapshotOf(containers[i].0, containers[i].1, now) == Some(e) {
      if Some(e) in xs {
        var i :| 0 <= i < |xs| && xs[i] == Some(e);
      }
    }
  }

  /** `collect_single_snapshot`: an empty response gives no entries; a truthy response that is
      not a dict makes `.items()` raise. */
  function SnapshotResult(containersData: Json, now: string): Result<seq<Snapshot>, string>
  {
    if !Truthy(containersData) then Ok([])
    else if !containersData.JObj? then Err("AttributeError")
    else Ok(Somes(Outcomes(containersData.fields, now)))
  }

  /** The body of the snapshot loop for one container: `None` where it `continue`s. */
  method SnapshotEntry(path: string, info: Json, now: string) returns (entry: Option<Snapshot>)
    ensures entry == SnapshotOf(path, info, now)
  {
    if !info.JObj? {
      return None;
    }
    var statsList := Get(info.fields, "stats", JArr([]));
    if !statsList.JArr? || statsList.items == [] {
      return None;
    }
    if !Last(statsList.items).JObj? {
      return None;
    }
    var e := LatestEntry(path, info, now);
    entry := Some(e);
  }

  /** The entry of a container that is not skipped: its last stat with the four extracts. */
  method LatestEntry(path: string, info: Json, now: string) returns (e: Snapshot)
    requires info.JObj? && Get(info.fields, "stats", JArr([])).JArr? && Get(info.fields, "stats", JArr([])).items != []
    requires Last(Get(info.fields, "stats", JArr([])).items).JObj?
    ensures SnapshotOf(path, info, now) == Some(e)
  {
    var latest := Last(Get(info.fields, "stats", JArr([])).items);
    var network := ExtractNetworkStats(latest);
    var filesystem := ExtractFilesystemStats(latest);
    e := Entry(path, info, latest, now, network, filesystem);
  }

  /** `collect_single_snapshot` */
  method CollectSingleSnapshot(containersData: Json, now: string) returns (r: Result<seq<Snapshot>, string>)
    ensures r == SnapshotResult(containersData, now)
  {
    if !Truthy(containersData) {
      return Ok([]);
    }
    if !containersData.JObj? {
      return Err("AttributeError");
    }
    var containers := containersData.fields;
    ghost var outcomes := Outcomes(containers, now);
    var metricsData: seq<Snapshot> := [];
    assert outcomes[..0] == [];
    for i := 0 to |containers|
      invariant metricsData == Somes(outcomes[..i])
    {
      SomesStep(outcomes, i);
      var entry := SnapshotEntry(containers[i].0, containers[i].1, now);
      if entry.Some? {
        metricsData := metricsData + [entry.value];
      }
    }
    assert outcomes[..|outcomes|] == outcomes;
    return Ok(metricsData);
  }
}
