// The cAdvisor metric catalogue (apps/cadvisor-metrics-collector/src/full_metrics_config.py)
// and the script that lists what an exporter offers against it
// (apps/cadvisor-metrics-collector/src/check_metrics.py).
module MetricsCatalog {
  import opened Wrappers
  import opened Strings
  import opened OrderedDicts

  // --------------------------------------------------- expected metrics

  /** `list(set(xs))`: each value of `xs` once. Python leaves the order to the set; the model
      keeps first occurrences. */
  function Unique<T(==,!new)>(xs: seq<T>): (r: seq<T>)
    ensures Distinct(r)
    ensures forall x :: x in r <==> x in xs
    ensures |r| <= |xs|
    decreases |xs|
  {
    if xs == [] then []
    else
      var prev := Unique(xs[..|xs| - 1]);
      var last := xs[|xs| - 1];
      assert forall x :: x in xs <==> x in xs[..|xs| - 1] || x == last by {
        assert xs == xs[..|xs| - 1] + [last];
      }
      if last in prev then prev else prev + [last]
  }

  /** A dedup that keeps every entry had nothing to drop. */
  lemma {:induction false} UniqueKeepsAll<T(!new)>(xs: seq<T>)
    ensures |Unique(xs)| == |xs| ==> Distinct(xs)
    decreases |xs|
  {
    if xs != [] {
      var init := xs[..|xs| - 1];
      var last := xs[|xs| - 1];
      UniqueKeepsAll(init);
      if |Unique(xs)| == |xs| && last !in Unique(init) {
        assert last !in init;
        assert xs == init + [last];
      }
    }
  }

  /** A list with a repeated value loses entries to the dedup. */
  lemma UniqueDropsRepeats<T(!new)>(xs: seq<T>)
    requires !Distinct(xs)
    ensures |Unique(xs)| < |xs|
  {
    UniqueKeepsAll(xs);
  }

  /** A repeat inside one piece is a repeat of the whole. */
  lemma InfixNotDistinct<T>(a: seq<T>, b: seq<T>, c: seq<T>)
    requires !Distinct(b)
    ensures !Distinct(a + b + c)
  {
    var i, j :| 0 <= i < j < |b| && b[i] == b[j];
    assert (a + b + c)[|a| + i] == (a + b + c)[|a| + j];
  }

  /** A repeat in a prefix is a repeat of the whole. */
  lemma RepeatKept<T>(a: seq<T>, b: seq<T>)
    requires !Distinct(a)
    ensures !Distinct(a + b)
  {
    var i, j :| 0 <= i < j < |a| && a[i] == a[j];
    assert (a + b)[i] == (a + b)[j];
  }

  const DefaultCpuMetrics: seq<string> := [
    "container_cpu_usage_seconds_total", "container_cpu_user_seconds_total",
    "container_cpu_system_seconds_total", "container_cpu_cfs_periods_total",
    "container_cpu_cfs_throttled_periods_total", "container_cpu_cfs_throttled_seconds_total",
    "container_cpu_load_average_10s", "container_cpu_schedstat_run_seconds_total",
    "container_cpu_schedstat_runqueue_seconds_total", "container_cpu_schedstat_run_periods_total",
    "container_spec_cpu_period", "container_spec_cpu_quota", "container_spec_cpu_shares"]

  const DefaultMemoryMetrics: seq<string> := [
    "container_memory_usage_bytes", "container_memory_working_set_bytes", "container_memory_rss",
    "container_memory_cache", "container_memory_swap", "container_memory_mapped_file",
    "container_memory_failcnt", "container_memory_failures_total", "container_memory_max_usage_bytes",
    "container_spec_memory_limit_bytes", "container_spec_memory_swap_limit_bytes",
    "container_spec_memory_reservation_limit_bytes", "container_memory_kernel_usage_bytes",
    "container_memory_slab_bytes", "container_memory_numa_pages", "container_memory_numa_pages_migrated",
    "container_memory_numa_hit", "container_memory_numa_miss", "container_memory_numa_foreign"]

  const DefaultNetworkMetrics: seq<string> := [
    "container_network_receive_bytes_total", "container_network_receive_packets_total",
    "container_network_receive_packets_dropped_total", "container_network_receive_errors_total",
    "container_network_transmit_bytes_total", "container_network_transmit_packets_total",
    "container_network_transmit_packets_dropped_total", "container_network_transmit_errors_total",
    "container_network_tcp_usage_total", "container_network_tcp6_usage_total",
    "container_network_udp_usage_total", "container_network_udp6_usage_total",
    "container_network_tcp_usage_total", "container_network_advance_tcp_stats_rto_algorithm",
    "container_network_advance_tcp_stats_rto_min", "container_network_advance_tcp_stats_rto_max",
    "container_network_advance_tcp_stats_max_conn", "container_network_advance_tcp_stats_active_opens",
    "container_network_advance_tcp_stats_passive_opens", "container_network_advance_tcp_stats_attempt_fails",
    "container_network_advance_tcp_stats_estab_resets", "container_network_advance_tcp_stats_curr_estab",
    "container_network_advance_tcp_stats_in_segs", "container_network_advance_tcp_stats_out_segs",
    "container_network_advance_tcp_stats_retrans_segs", "container_network_advance_tcp_stats_in_errs",
    "container_network_advance_tcp_stats_out_rsts"]

  const DefaultDiskMetrics: seq<string> := [
    "container_fs_usage_bytes", "container_fs_limit_bytes", "container_fs_reads_total",
    "container_fs_read_seconds_total", "container_fs_reads_merged_total", "container_fs_read_bytes_total",
    "container_fs_writes_total", "container_fs_write_seconds_total", "container_fs_writes_merged_total",
    "container_fs_write_bytes_total", "container_fs_io_current", "container_fs_io_time_seconds_total",
    "container_fs_io_time_weighted_seconds_total", "container_fs_inodes_free", "container_fs_inodes_total",
    "container_fs_sector_reads_total", "container_fs_sector_writes_total"]

  const DefaultProcessMetrics: seq<string> := [
    "container_processes", "container_threads", "container_threads_max", "container_file_descriptors",
    "container_sockets", "container_ulimits_soft", "container_spec_ulimits_soft", "container_ulimits_hard",
    "container_spec_ulimits_hard"]

  const DefaultSystemMetrics: seq<string> := [
    "container_last_seen", "container_start_time_seconds", "container_spec_cpu_period",
    "container_spec_cpu_quota", "container_spec_cpu_shares", "container_spec_memory_limit_bytes",
    "container_spec_memory_swap_limit_bytes", "machine_cpu_cores", "machine_cpu_physical_cores",
    "machine_memory_bytes", "machine_cpu_frequency_khz"]

  const DefaultAcceleratorMetrics: seq<string> := [
    "container_accelerator_memory_total_bytes", "container_accelerator_memory_used_bytes",
    "container_accelerator_duty_cycle", "container_accelerator_temperature_celsius"]

  const DefaultHugetlbMetrics: seq<string> := [
    "container_hugetlb_usage_bytes", "container_hugetlb_failcnt", "container_hugetlb_max_usage_bytes"]

  const DefaultSchedulerMetrics: seq<string> := [
    "container_cpu_schedstat_run_seconds_total", "container_cpu_schedstat_runqueue_seconds_total",
    "container_cpu_schedstat_run_periods_total"]

  const DefaultTcpUdpMetrics: seq<string> := [
    "container_network_tcp_usage_total", "container_network_tcp6_usage_total",
    "container_network_udp_usage_total", "container_network_udp6_usage_total"]

  /** What `get_all_metrics` extends, for a configuration left entirely to its defaults. */
  function DefaultAllMetrics(): seq<string>
  {
    DefaultCpuMetrics + DefaultMemoryMetrics + DefaultNetworkMetrics + DefaultDiskMetrics +
    DefaultProcessMetrics + DefaultSystemMetrics + DefaultAcceleratorMetrics + DefaultHugetlbMetrics +
    DefaultSchedulerMetrics + DefaultTcpUdpMetrics
  }

  /** The default lists repeat names (the TCP usage counter twice in the network list), so the
      deduplicated list of a default configuration is strictly shorter than their concatenation. */
  lemma DefaultsRepeatNames()
    ensures !Distinct(DefaultAllMetrics())
    ensures |Unique(DefaultAllMetrics())| < |DefaultAllMetrics()|
  {
    var net := DefaultCpuMetrics + DefaultMemoryMetrics + DefaultNetworkMetrics;
    assert DefaultNetworkMetrics[8] == DefaultNetworkMetrics[12];
    InfixNotDistinct(DefaultCpuMetrics + DefaultMemoryMetrics, DefaultNetworkMetrics, []);
    assert net + [] == net;
    RepeatKept(net, DefaultDiskMetrics);
    RepeatKept(net + DefaultDiskMetrics, DefaultProcessMetrics);
    RepeatKept(net + DefaultDiskMetrics + DefaultProcessMetrics, DefaultSystemMetrics);
    RepeatKept(net + DefaultDiskMetrics + DefaultProcessMetrics + DefaultSystemMetrics, DefaultAcceleratorMetrics);
    RepeatKept(net + DefaultDiskMetrics + DefaultProcessMetrics + DefaultSystemMetrics + DefaultAcceleratorMetrics,
               DefaultHugetlbMetrics);
    RepeatKept(net + DefaultDiskMetrics + DefaultProcessMetrics + DefaultSystemMetrics + DefaultAcceleratorMetrics +
               DefaultHugetlbMetrics, DefaultSchedulerMetrics);
    RepeatKept(net + DefaultDiskMetrics + DefaultProcessMetrics + DefaultSystemMetrics + DefaultAcceleratorMetrics +
               DefaultHugetlbMetrics + DefaultSchedulerMetrics, DefaultTcpUdpMetrics);
    UniqueDropsRepeats(DefaultAllMetrics());
  }

  /** `FullMetricsConfig`: ten category lists, each `None` unless supplied. */
  class FullMetricsConfig {
    var cpuMetrics: seq<string>
    var memoryMetrics: seq<string>
    var networkMetrics: seq<string>
    var diskMetrics: seq<string>
    var processMetrics: seq<string>
    var systemMetrics: seq<string>
    var acceleratorMetrics: seq<string>
    var hugetlbMetrics: seq<string>
    var schedulerMetrics: seq<string>
    var tcpUdpMetrics: seq<string>

    /** The dataclass constructor followed by `__post_init__`: a list left `None` gets its
        default, a supplied list is kept as it is. */
    constructor (cpu: Option<seq<string>>, memory: Option<seq<string>>, network: Option<seq<string>>,
                 disk: Option<seq<string>>, process: Option<seq<string>>, system: Option<seq<string>>,
                 accelerator: Option<seq<string>>, hugetlb: Option<seq<string>>,
                 scheduler: Option<seq<string>>, tcpUdp: Option<seq<string>>)
      ensures cpuMetrics == cpu.GetOr(DefaultCpuMetrics)
      ensures memoryMetrics == memory.GetOr(DefaultMemoryMetrics)
      ensures networkMetrics == network.GetOr(DefaultNetworkMetrics)
      ensures diskMetrics == disk.GetOr(DefaultDiskMetrics)
      ensures processMetrics == process.GetOr(DefaultProcessMetrics)
      ensures systemMetrics == system.GetOr(DefaultSystemMetrics)
      ensures acceleratorMetrics == accelerator.GetOr(DefaultAcceleratorMetrics)
      ensures hugetlbMetrics == hugetlb.GetOr(DefaultHugetlbMetrics)
      ensures schedulerMetrics == scheduler.GetOr(DefaultSchedulerMetrics)
      ensures tcpUdpMetrics == tcpUdp.GetOr(DefaultTcpUdpMetrics)
    {
      cpuMetrics := cpu.GetOr(DefaultCpuMetrics);
      memoryMetrics := memory.GetOr(DefaultMemoryMetrics);
      networkMetrics := network.GetOr(DefaultNetworkMetrics);
      diskMetrics := disk.GetOr(DefaultDiskMetrics);
      processMetrics := process.GetOr(DefaultProcessMetrics);
      systemMetrics := system.GetOr(DefaultSystemMetrics);
      acceleratorMetrics := accelerator.GetOr(DefaultAcceleratorMetrics);
      hugetlbMetrics := hugetlb.GetOr(DefaultHugetlbMetrics);
      schedulerMetrics := scheduler.GetOr(DefaultSchedulerMetrics);
      tcpUdpMetrics := tcpUdp.GetOr(DefaultTcpUdpMetrics);
    }

    /** `get_all_metrics`: every name of every list, each once; the lists are only read. */
    method GetAllMetrics() returns (r: seq<string>)
      ensures Distinct(r)
      ensures forall m :: m in r <==>
        m in cpuMetrics || m in memoryMetrics || m in networkMetrics || m in diskMetrics ||
        m in processMetrics || m in systemMetrics || m in acceleratorMetrics || m in hugetlbMetrics ||
        m in schedulerMetrics || m in tcpUdpMetrics
      ensures |r| <= |cpuMetrics| + |memoryMetrics| + |networkMetrics| + |diskMetrics| + |processMetrics| +
        |systemMetrics| + |acceleratorMetrics| + |hugetlbMetrics| + |schedulerMetrics| + |tcpUdpMetrics|
    {
      var allMetrics: seq<string> := [];
      allMetrics := allMetrics + cpuMetrics;
      allMetrics := allMetrics + memoryMetrics;
      allMetrics := allMetrics + networkMetrics;
      allMetrics := allMetrics + diskMetrics;
      allMetrics := allMetrics + processMetrics;
      allMetrics := allMetrics + systemMetrics;
      allMetrics := allMetrics + acceleratorMetrics;
      allMetrics := allMetrics + hugetlbMetrics;
      allMetrics := allMetrics + schedulerMetrics;
      allMetrics := allMetrics + tcpUdpMetrics;
      r := Unique(allMetrics);
    }
  }

  // ------------------------------------------------------ name of a line

  /** `s.split()[0]` for a string without leading whitespace: the run up to the first space. */
  function FirstWord(s: string): (r: string)
    ensures |r| <= |s| && r == s[..|r|]
    ensures forall i :: 0 <= i < |r| ==> !IsSpace(r[i])
    ensures |r| < |s| ==> IsSpace(s[|r|])
    decreases |s|
  {
    if s == [] || IsSpace(s[0]) then [] else [s[0]] + FirstWord(s[1..])
  }

  /** The metric name a line of the exposition contributes, if any: blank and `#` lines and
      lines whose name is empty give none. */
  function LineName(raw: string): Option<string>
  {
    var line := Strip(raw);
    if line == [] || line[0] == '#' then None
    else
      var name := if !NoChar(line, '{') then Split(line, '{')[0] else FirstWord(line);
      if name == [] then None else Some(name)
  }

  /** Blank and comment lines name nothing; a name is a non-empty prefix of the stripped line,
      ending at its first `{` when it has one and at its first whitespace otherwise. */
  lemma LineNameShape(raw: string)
    ensures var line := Strip(raw);
      var r := LineName(raw);
      (line == [] || line[0] == '#' ==> r.None?) &&
      (r.Some? ==> (r.value != [] && StartsWith(line, r.value) &&
         (!NoChar(line, '{') ==> (NoChar(r.value, '{') && line[|r.value|] == '{')) &&
         (NoChar(line, '{') ==> ((forall i :: 0 <= i < |r.value| ==> !IsSpace(r.value[i])) &&
                                (|r.value| < |line| ==> IsSpace(line[|r.value|]))))))
  {
    var line := Strip(raw);
    if line != [] && line[0] != '#' && !NoChar(line, '{') {
      assert Split(line, '{')[0] == line[..IndexOf(line, '{').value];
    }
  }

  /** A line that is neither blank nor a comment and does not open with `{` names a metric. */
  lemma LineHasName(raw: string)
    requires var line := Strip(raw); line != [] && line[0] != '#' && line[0] != '{'
    ensures LineName(raw).Some?
  {
    var line := Strip(raw);
    if !NoChar(line, '{') {
      assert IndexOf(line, '{').value != 0;
    }
  }

  // ------------------------------------------------------- categories

  /** The category rules in the order they are tried, each with its substrings. */
  const CategoryRules: seq<(string, seq<string>)> := [
    ("CPU", ["cpu"]), ("Memory", ["memory"]), ("Network", ["network"]),
    ("Filesystem/Disk", ["fs", "disk"]), ("Process", ["process", "thread"]),
    ("Accelerator/GPU", ["accelerator"]), ("HugeTLB", ["hugetlb"]), ("TCP/UDP", ["tcp", "udp"]),
    ("Machine", ["machine"])]

  const OtherCategory: string := "Other"

  predicate Matches(name: string, patterns: seq<string>)
  {
    exists i :: 0 <= i < |patterns| && Contains(name, patterns[i])
  }

  /** The index of the first rule whose substrings occur in `name`. */
  function FirstRule(name: string, rules: seq<(string, seq<string>)>): (r: Option<nat>)
    ensures r.Some? ==> (r.value < |rules| && Matches(name, rules[r.value].1) &&
      forall j :: 0 <= j < r.value ==> !Matches(name, rules[j].1))
    ensures r.None? ==> forall j :: 0 <= j < |rules| ==> !Matches(name, rules[j].1)
    decreases |rules|
  {
    if rules == [] then None
    else if Matches(name, rules[0].1) then Some(0)
    else
      var rest := FirstRule(name, rules[1..]);
      assert forall j :: 1 <= j < |rules| ==> rules[j] == rules[1..][j - 1];
      match rest
      case None => None
      case Some(k) => Some(k + 1)
  }

  /** The category `get_available_metrics` files a name under. */
  function Category(name: string): string
  {
    match FirstRule(name, CategoryRules)
    case Some(k) => CategoryRules[k].0
    case None => OtherCategory
  }

  /** The category is that of the first matching rule, and `Other` exactly when none matches. */
  lemma CategoryFirstMatch(name: string)
    ensures Category(name) == OtherCategory <==> forall j :: 0 <= j < |CategoryRules| ==> !Matches(name, CategoryRules[j].1)
    ensures Category(name) != OtherCategory ==> exists k :: (0 <= k < |CategoryRules| &&
      Category(name) == CategoryRules[k].0 && Matches(name, CategoryRules[k].1) &&
      forall j :: 0 <= j < k ==> !Matches(name, CategoryRules[j].1))
  {
    match FirstRule(name, CategoryRules)
    case Some(k) =>
      assert CategoryRules[k].0 != OtherCategory;
    case None =>
  }

  /** Precedence: a name holding `network` but neither `cpu` nor `memory` is a network metric,
      whatever else it holds (`tcp`, `udp`, `fs`). */
  lemma NetworkBeforeTcp(name: string)
    requires Contains(name, "network") && !Contains(name, "cpu") && !Contains(name, "memory")
    ensures Category(name) == "Network"
  {
    assert CategoryRules[2].1[0] == "network";
    assert Matches(name, CategoryRules[2].1);
    assert CategoryRules[0].1 == ["cpu"] && CategoryRules[1].1 == ["memory"];
    assert !Matches(name, CategoryRules[0].1) && !Matches(name, CategoryRules[1].1);
  }

  // ------------------------------------------------------- the catalogue

  /** The loop state: the names seen so far and the lists by category, in creation order. */
  datatype Catalog = Catalog(seen: set<string>, byCategory: ODict<string, seq<string>>)

  /** Filing one name under `category`: a name already seen changes nothing. */
  function RecordAs(c: Catalog, name: string, category: string): (r: Catalog)
    requires Valid(c.byCategory)
    ensures Valid(r.byCategory)
  {
    if name in c.seen then c
    else
      var list := if category in c.byCategory.values then c.byCategory.values[category] else [];
      Catalog(c.seen + {name}, Put(c.byCategory, category, list + [name]))
  }

  /** Filing one name under its own category. */
  function Record(c: Catalog, name: string): (r: Catalog)
    requires Valid(c.byCategory)
    ensures Valid(r.byCategory)
  {
    RecordAs(c, name, Category(name))
  }

  /** What each line contributes. */
  function LineNames(lines: seq<string>): (r: seq<Option<string>>)
    ensures |r| == |lines|
    ensures forall i :: 0 <= i < |lines| ==> r[i] == LineName(lines[i])
  {
    seq(|lines|, i requires 0 <= i < |lines| => LineName(lines[i]))
  }

  /** The names the lines contribute, in order, repeats included. */
  function Names(lines: seq<string>): seq<string>
  {
    Somes(LineNames(lines))
  }

  /** Filing each of `names` in turn. */
  function Catalogue(names: seq<string>): (r: Catalog)
    ensures Valid(r.byCategory)
    decreases |names|
  {
    if names == [] then Catalog({}, Empty())
    else Record(Catalogue(names[..|names| - 1]), names[|names| - 1])
  }

  /** The catalogue built from the lines of an exposition. */
  function Collect(lines: seq<string>): (r: Catalog)
    ensures Valid(r.byCategory)
  {
    Catalogue(Names(lines))
  }

  /** `get_available_metrics`: the response body, or `None` when the request raised. */
  function AvailableMetrics(response: Option<string>): (r: ODict<string, seq<string>>)
    ensures Valid(r)
  {
    match response
    case None => Empty()
    case Some(text) => Collect(Split(text, '\n')).byCategory
  }

  lemma CollectStep(lines: seq<string>, i: nat)
    requires i < |lines|
    ensures Collect(lines[..i + 1]) ==
      match LineName(lines[i]) case None => Collect(lines[..i]) case Some(name) => Record(Collect(lines[..i]), name)
  {
    var xs := LineNames(lines);
    assert LineNames(lines[..i + 1]) == xs[..i + 1];
    assert LineNames(lines[..i]) == xs[..i];
    SomesStep(xs, i);
    var names := Names(lines[..i]);
    if LineName(lines[i]).Some? {
      assert (names + [LineName(lines[i]).value])[..|names|] == names;
    }
  }

  /** `get_available_metrics` */
  method GetAvailableMetrics(response: Option<string>) returns (r: ODict<string, seq<string>>)
    ensures r == AvailableMetrics(response)
  {
    if response.None? {
      return Empty();
    }
    var lines := Split(response.value, '\n');
    var uniqueMetrics: set<string> := {};
    var metricsByCategory: ODict<string, seq<string>> := Empty();
    assert lines[..0] == [];
    for i := 0 to |lines|
      invariant Collect(lines[..i]) == Catalog(uniqueMetrics, metricsByCategory)
    {
      CollectStep(lines, i);
      var line := Strip(lines[i]);
      if line == [] || line[0] == '#' {
        continue;
      }
      var metricName := if !NoChar(line, '{') then Split(line, '{')[0] else FirstWord(line);
      if metricName != [] && metricName !in uniqueMetrics {
        uniqueMetrics := uniqueMetrics + {metricName};
        var category := Category(metricName);
        var list := if category in metricsByCategory.values then metricsByCategory.values[category] else [];
        metricsByCategory := Put(metricsByCategory, category, list + [metricName]);
      }
    }
    assert lines[..|lines|] == lines;
    return metricsByCategory;
  }

  /** Every listed name is recorded once, under the category `category` gives it, and was
      seen; every name seen is listed under that category. */
  ghost predicate FiledBy(c: Catalog, category: string -> string)
  {
    (forall k :: k in c.byCategory.values ==> Distinct(c.byCategory.values[k])) &&
    (forall k, j :: k in c.byCategory.values && 0 <= j < |c.byCategory.values[k]| ==>
       category(c.byCategory.values[k][j]) == k && c.byCategory.values[k][j] in c.seen) &&
    (forall n :: n in c.seen ==> category(n) in c.byCategory.values && n in c.byCategory.values[category(n)])
  }

  ghost predicate Filed(c: Catalog)
  {
    FiledBy(c, Category)
  }

  lemma RecordAsFiled(c: Catalog, name: string, category: string -> string)
    requires Valid(c.byCategory) && FiledBy(c, category)
    ensures FiledBy(RecordAs(c, name, category(name)), category)
    ensures RecordAs(c, name, category(name)).seen == c.seen + {name}
  {
    if name !in c.seen {
      var k0 := category(name);
      var list := if k0 in c.byCategory.values then c.byCategory.values[k0] else [];
      assert name !in list;
      var r := RecordAs(c, name, k0);
      assert r.byCategory.values == c.byCategory.values[k0 := list + [name]];
      forall k, j | k in r.byCategory.values && 0 <= j < |r.byCategory.values[k]|
        ensures category(r.byCategory.values[k][j]) == k && r.byCategory.values[k][j] in r.seen
      {
        if k == k0 && j == |list| {
          assert r.byCategory.values[k][j] == name;
        } else if k == k0 {
          assert r.byCategory.values[k][j] == list[j];
        }
      }
    }
  }

  /** Filing names files each once under its category. */
  lemma {:induction false} CatalogueFiled(names: seq<string>)
    ensures Filed(Catalogue(names))
    decreases |names|
  {
    if names != [] {
      var init := names[..|names| - 1];
      var last := names[|names| - 1];
      CatalogueFiled(init);
      RecordAsFiled(Catalogue(init), last, Category);
      assert Catalogue(names) == RecordAs(Catalogue(init), last, Category(last));
    }
  }

  lemma RecordSeen(c: Catalog, name: string)
    requires Valid(c.byCategory)
    ensures Record(c, name).seen == c.seen + {name}
  {
  }

  /** Filing names sees exactly those names. */
  lemma {:induction false} CatalogueSeen(names: seq<string>)
    ensures forall n :: n in Catalogue(names).seen <==> n in names
    decreases |names|
  {
    if names != [] {
      var init := names[..|names| - 1];
      var last := names[|names| - 1];
      CatalogueSeen(init);
      SeenStep(names, init, last);
      MemberSnoc(names, init, last);
    }
  }

  lemma MemberSnoc(names: seq<string>, init: seq<string>, last: string)
    requires names != [] && init == names[..|names| - 1] && last == names[|names| - 1]
    ensures forall n :: n in names <==> n in init || n == last
  {
    assert names == init + [last];
  }

  lemma SeenStep(names: seq<string>, init: seq<string>, last: string)
    requires names != [] && init == names[..|names| - 1] && last == names[|names| - 1]
    ensures Catalogue(names).seen == Catalogue(init).seen + {last}
  {
    RecordSeen(Catalogue(init), last);
  }

  /** The names seen are exactly those the lines name, each filed once under its category. */
  lemma CollectFiled(lines: seq<string>)
    ensures Filed(Collect(lines))
    ensures forall n :: n in Collect(lines).seen <==> exists i :: 0 <= i < |lines| && LineName(lines[i]) == Some(n)
  {
    CatalogueFiled(Names(lines));
    CatalogueSeen(Names(lines));
    var xs := LineNames(lines);
    SomesMembers(xs);
    forall n ensures Some(n) in xs <==> exists i :: 0 <= i < |lines| && LineName(lines[i]) == Some(n) {
      if Some(n) in xs {
        var i :| 0 <= i < |xs| && xs[i] == Some(n);
      }
    }
  }

  lemma LineNamesConcat(a: seq<string>, b: seq<string>)
    ensures LineNames(a + b) == LineNames(a) + LineNames(b)
  {
    forall i | 0 <= i < |a + b| ensures LineNames(a + b)[i] == (LineNames(a) + LineNames(b))[i] {
      if i < |a| {
        assert (a + b)[i] == a[i];
      } else {
        assert (a + b)[i] == b[i - |a|];
      }
    }
  }

  /** A blank or comment line anywhere in the body changes nothing. */
  lemma SkippedLineIgnored(pre: seq<string>, line: string, post: seq<string>)
    requires LineName(line).None?
    ensures Collect(pre + [line] + post) == Collect(pre + post)
  {
    LineNamesConcat(pre + [line], post);
    LineNamesConcat(pre, [line]);
    LineNamesConcat(pre, post);
    assert LineNames([line]) == [None];
    var a, b := LineNames(pre), LineNames(post);
    SomesSkipsNone(a, b);
  }

  // ------------------------------------------------------- comparison

  /** `available_set`: the union of the category lists. */
  function AvailableSet(d: ODict<string, seq<string>>): set<string>
  {
    Union(d.keys, d.values)
  }

  function Union(keys: seq<string>, lists: map<string, seq<string>>): (r: set<string>)
    ensures forall n :: n in r <==> exists i :: 0 <= i < |keys| && keys[i] in lists && n in lists[keys[i]]
    decreases |keys|
  {
    if keys == [] then {}
    else
      var prev := Union(keys[..|keys| - 1], lists);
      var k := keys[|keys| - 1];
      assert forall i :: 0 <= i < |keys| - 1 ==> keys[..|keys| - 1][i] == keys[i];
      prev + (if k in lists then set n | n in lists[k] else {})
  }

  /** The union of the lists of a catalogue is the set of names it has seen. */
  lemma AvailableIsSeen(lines: seq<string>)
    ensures AvailableSet(Collect(lines).byCategory) == Collect(lines).seen
  {
    var c := Collect(lines);
    CollectFiled(lines);
    var d := c.byCategory;
    forall n | n in c.seen ensures n in AvailableSet(d) {
      var k := Category(n);
      assert k in d.values.Keys;
      var i :| 0 <= i < |d.keys| && d.keys[i] == k;
    }
    forall n | n in AvailableSet(d) ensures n in c.seen {
      var i :| 0 <= i < |d.keys| && d.keys[i] in d.values && n in d.values[d.keys[i]];
      var j :| 0 <= j < |d.values[d.keys[i]]| && d.values[d.keys[i]][j] == n;
    }
  }

  /** What `compare_with_expected` reports. */
  datatype Comparison = Comparison(found: set<string>, missing: set<string>, extra: set<string>)

  /** `compare_with_expected`, with the expected names (the set of `get_all_metrics`) passed in. */
  function CompareWithExpected(expected: set<string>, available: ODict<string, seq<string>>): Comparison
  {
    var availableSet := AvailableSet(available);
    Comparison(expected * availableSet, expected - availableSet, availableSet - expected)
  }

  /** Found and missing split the expected names; found and extra split the available ones. */
  lemma ComparisonPartitions(expected: set<string>, available: ODict<string, seq<string>>)
    ensures var c := CompareWithExpected(expected, available);
      c.found + c.missing == expected && c.found * c.missing == {} &&
      c.found + c.extra == AvailableSet(available) && c.found * c.extra == {} &&
      c.missing * AvailableSet(available) == {} && c.extra * expected == {}
  {
  }
}
