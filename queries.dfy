// PromQL selector construction and raw-sample extraction of the two dataset
// generators (the lab generator and the collection system).
module PromQueries {
  import opened Wrappers
  import opened Strings
  import opened Numbers
  import opened NumberParsing

  /** Which of the two diverging copies of the extractor is meant. */
  datatype Copy = Lab | Coleta

  /** An optional text argument is used only when Python finds it truthy. */
  predicate Given(a: Option<string>) { a.Some? && a.value != "" }

  const ContainerNotPod := "container!=\"POD\""
  const ContainerNotEmpty := "container!=\"\""
  const ResourceMemory := "resource=\"memory\""

  function PodMatcher(p: string): string { "pod=~\"" + p + "\"" }
  function NamespaceMatcher(ns: string): string { "namespace=\"" + ns + "\"" }

  /**
   * The label matchers of one metric's query: the two container exclusions, the
   * memory resource for the lab copy's `memory_limit`, then the pod regex and
   * the namespace when they are given.
   */
  function Filters(copy: Copy, metricName: string, podFilter: Option<string>, namespace: Option<string>): (fs: seq<string>)
    ensures |fs| >= 2 && fs[0] == ContainerNotPod && fs[1] == ContainerNotEmpty
    ensures |fs| == 2 + (if copy == Lab && metricName == "memory_limit" then 1 else 0)
                      + (if Given(podFilter) then 1 else 0) + (if Given(namespace) then 1 else 0)
    ensures (ResourceMemory in fs) <==> copy == Lab && metricName == "memory_limit"
    ensures copy == Lab && metricName == "memory_limit" ==> fs[2] == ResourceMemory
    ensures Given(podFilter) ==>
      fs[2 + (if copy == Lab && metricName == "memory_limit" then 1 else 0)] == PodMatcher(podFilter.value)
    ensures Given(namespace) ==> fs[|fs| - 1] == NamespaceMatcher(namespace.value)
  {
    var resource := if copy == Lab && metricName == "memory_limit" then [ResourceMemory] else [];
    var pod := if Given(podFilter) then [PodMatcher(podFilter.value)] else [];
    var ns := if Given(namespace) then [NamespaceMatcher(namespace.value)] else [];
    var fs := [ContainerNotPod, ContainerNotEmpty] + resource + pod + ns;
    assert ContainerNotPod[0] != ResourceMemory[0] && ContainerNotEmpty[0] != ResourceMemory[0];
    assert Given(podFilter) ==> PodMatcher(podFilter.value)[0] != ResourceMemory[0];
    assert Given(namespace) ==> NamespaceMatcher(namespace.value)[0] != ResourceMemory[0];
    fs
  }

  /** `rate(NAME[WIN])`, the shape every rate template of the catalogues has. */
  function RateTemplate(name: string, window: string): string
  {
    "rate(" + name + "[" + window + "])"
  }

  /** A metric name or window without brackets or parentheses. */
  predicate Plain(s: string)
  {
    NoChar(s, '(') && NoChar(s, ')') && NoChar(s, '[')
  }

  /**
   * The lab copy: a `rate(` template is taken apart and the selector put
   * inside the rate; `None` is the `IndexError` raised when the template has
   * no `[`. Any other template gets the selector appended.
   */
  function LabQuery(template: string, filters: string): (q: Option<string>)
    ensures !StartsWith(template, "rate(") ==> q == Some(template + "{" + filters + "}")
  {
    if StartsWith(template, "rate(") then
      var base := ReplaceAll(ReplaceAll(template, "rate(", ""), ")", "");
      var parts := Split(base, '[');
      if |parts| < 2 then None
      else Some("rate(" + parts[0] + "{" + filters + "}" + "[" + parts[1] + ")")
    else Some(template + "{" + filters + "}")
  }

  /** The collection system's copy: the selector is always appended. */
  function ColetaQuery(template: string, filters: string): (q: string)
    ensures StartsWith(q, template) && q[|template|..] == "{" + filters + "}"
  {
    template + "{" + filters + "}"
  }

  function Query(copy: Copy, template: string, filters: string): Option<string>
  {
    if copy == Lab then LabQuery(template, filters) else Some(ColetaQuery(template, filters))
  }

  lemma {:induction false} ReplaceTrailing(x: string, c: char)
    requires NoChar(x, c)
    ensures ReplaceAll(x + [c], [c], "") == x
    decreases |x|
  {
    if x == [] {
      assert ([] + [c])[..1] == [c];
    } else {
      assert (x + [c])[..1] == [x[0]] != [c];
      assert (x + [c])[1..] == x[1..] + [c];
      ReplaceTrailing(x[1..], c);
      assert x == [x[0]] + x[1..];
    }
  }

  lemma {:induction false} IndexOfAfter(a: string, c: char, b: string)
    requires NoChar(a, c)
    ensures IndexOf(a + [c] + b, c) == Some(|a|)
    decreases |a|
  {
    if a != [] {
      assert (a + [c] + b)[1..] == a[1..] + [c] + b;
      IndexOfAfter(a[1..], c, b);
    }
  }

  lemma {:induction false} DropRatePrefix(name: string, window: string)
    requires Plain(name) && Plain(window)
    ensures ReplaceAll(RateTemplate(name, window), "rate(", "") == name + "[" + window + "])"
  {
    var t := RateTemplate(name, window);
    var rest := name + "[" + window + "])";
    assert t == "rate(" + rest;
    assert t[..5] == "rate(" && t[5..] == rest;
    assert NoChar(rest, '(') by {
      assert rest == name + ['['] + window + [']', ')'];
    }
    NoCharNotContains(rest, "rate(", '(');
    ReplaceAllAbsent(rest, "rate(", "");
  }

  lemma {:induction false} DropClosingParen(name: string, window: string)
    requires Plain(name) && Plain(window)
    ensures ReplaceAll(name + "[" + window + "])", ")", "") == name + "[" + window + "]"
  {
    var inner := name + "[" + window + "]";
    assert NoChar(inner, ')') by {
      assert inner == name + ['['] + window + [']'];
    }
    ReplaceTrailing(inner, ')');
    assert name + "[" + window + "])" == inner + [')'];
  }

  lemma {:induction false} SplitAtBracket(name: string, window: string)
    requires Plain(name) && Plain(window)
    ensures Split(name + "[" + window + "]", '[') == [name, window + "]"]
  {
    var inner := name + "[" + window + "]";
    IndexOfAfter(name, '[', window + "]");
    assert inner == name + ['['] + (window + "]");
    assert inner[..|name|] == name && inner[|name| + 1..] == window + "]";
    assert NoChar(window + "]", '[') by {
      assert window + "]" == window + [']'];
    }
    SplitNoChar(window + "]", '[');
  }

  /** The lab copy puts the selector inside the rate: `rate(NAME{filters}[WIN])`. */
  lemma {:induction false} LabRateInjection(name: string, window: string, filters: string)
    requires Plain(name) && Plain(window)
    ensures LabQuery(RateTemplate(name, window), filters) == Some("rate(" + name + "{" + filters + "}[" + window + "])")
  {
    var t := RateTemplate(name, window);
    assert StartsWith(t, "rate(") by {
      assert t == "rate(" + (name + "[" + window + "])");
    }
    DropRatePrefix(name, window);
    DropClosingParen(name, window);
    SplitAtBracket(name, window);
    assert "rate(" + name + "{" + filters + "}" + "[" + (window + "]") + ")" == "rate(" + name + "{" + filters + "}[" + window + "])";
  }

  /** Both copies build the same query from a template that is not a rate. */
  lemma {:induction false} CopiesAgreeOffRate(template: string, filters: string)
    requires !StartsWith(template, "rate(")
    ensures LabQuery(template, filters) == Some(ColetaQuery(template, filters))
  {
  }

  /** For a rate template the collection system leaves the selector outside
      the rate, so the two copies send different queries. */
  lemma {:induction false} CopiesDivergeOnRate(name: string, window: string, filters: string)
    requires Plain(name) && Plain(window)
    ensures ColetaQuery(RateTemplate(name, window), filters) == RateTemplate(name, window) + "{" + filters + "}"
    ensures LabQuery(RateTemplate(name, window), filters) != Some(ColetaQuery(RateTemplate(name, window), filters))
  {
    LabRateInjection(name, window, filters);
    var lab := "rate(" + name + "{" + filters + "}[" + window + "])";
    var coleta := ColetaQuery(RateTemplate(name, window), filters);
    assert lab[|lab| - 1] == ')';
    assert coleta[|coleta| - 1] == '}';
  }

  /** `get_metrics_config` of the lab generator: metric name and query template, in dict order. */
  const LabCatalogue: seq<(string, string)> := [
    ("cpu_usage_total", "rate(container_cpu_usage_seconds_total[5m])"),
    ("cpu_user", "rate(container_cpu_user_seconds_total[5m])"),
    ("cpu_system", "rate(container_cpu_system_seconds_total[5m])"),
    ("cpu_throttled_periods", "rate(container_cpu_cfs_throttled_periods_total[5m])"),
    ("cpu_throttled_time", "rate(container_cpu_cfs_throttled_seconds_total[5m])"),
    ("memory_usage_bytes", "container_memory_usage_bytes"),
    ("memory_working_set_bytes", "container_memory_working_set_bytes"),
    ("memory_rss", "container_memory_rss"),
    ("memory_cache", "container_memory_cache"),
    ("memory_swap", "container_memory_swap"),
    ("memory_max_usage", "container_memory_max_usage_bytes"),
    ("memory_failures", "rate(container_memory_failures_total[5m])"),
    ("memory_limit", "kube_pod_container_resource_limits"),
    ("cpu_quota", "container_spec_cpu_quota"),
    ("cpu_period", "container_spec_cpu_period"),
    ("network_rx_bytes", "rate(container_network_receive_bytes_total[5m])"),
    ("network_tx_bytes", "rate(container_network_transmit_bytes_total[5m])"),
    ("network_rx_errors", "rate(container_network_receive_errors_total[5m])"),
    ("network_tx_errors", "rate(container_network_transmit_errors_total[5m])"),
    ("network_rx_packets_dropped", "rate(container_network_receive_packets_dropped_total[5m])"),
    ("network_tx_packets_dropped", "rate(container_network_transmit_packets_dropped_total[5m])"),
    ("fs_usage_bytes", "container_fs_usage_bytes"),
    ("fs_limit_bytes", "container_fs_limit_bytes"),
    ("fs_reads", "rate(container_fs_reads_bytes_total[5m])"),
    ("fs_writes", "rate(container_fs_writes_bytes_total[5m])"),
    ("fs_read_time", "rate(container_fs_read_seconds_total[5m])"),
    ("fs_write_time", "rate(container_fs_write_seconds_total[5m])"),
    ("processes", "container_processes"),
    ("threads", "container_threads"),
    ("file_descriptors", "container_file_descriptors"),
    ("sockets", "container_sockets"),
    ("pod_ready", "kube_pod_status_ready"),
    ("pod_phase", "kube_pod_status_phase"),
    ("pod_conditions", "kube_pod_status_condition"),
    ("pod_scheduled", "kube_pod_status_scheduled"),
    ("container_restarts", "kube_pod_container_status_restarts_total"),
    ("container_ready", "kube_pod_container_status_ready"),
    ("container_running", "kube_pod_container_status_running"),
    ("container_waiting", "kube_pod_container_status_waiting"),
    ("container_terminated", "kube_pod_container_status_terminated"),
    ("oom_kills", "container_oom_events_total"),
    ("oom_kill_rate", "rate(container_oom_events_total[5m])"),
    ("network_tcp_connections", "container_network_tcp_usage_total"),
    ("network_udp_connections", "container_network_udp_usage_total"),
    ("pod_start_time", "kube_pod_start_time"),
    ("pod_created", "kube_pod_created"),
    ("container_start_time", "container_start_time_seconds"),
    ("pod_labels", "kube_pod_labels"),
    ("pod_owner", "kube_pod_owner"),
    ("probe_success", "prober_probe_total"),
    ("pod_qos_class", "kube_pod_status_qos_class"),
    ("memory_requests", "kube_pod_container_resource_requests"),
    ("memory_limits", "kube_pod_container_resource_limits"),
    ("cpu_requests", "kube_pod_container_resource_requests"),
    ("cpu_limits", "kube_pod_container_resource_limits"),
    ("pod_deletion_timestamp", "kube_pod_deletion_timestamp"),
    ("io_service_bytes_read", "rate(container_fs_io_current[5m])"),
    ("io_service_bytes_write", "rate(container_fs_io_current[5m])"),
    ("cpu_context_switches", "rate(container_cpu_cfs_periods_total[5m])"),
    ("tasks_sleeping", "container_tasks_state"),
    ("tasks_running", "container_tasks_state"),
    ("tasks_stopped", "container_tasks_state"),
    ("tasks_uninterruptible", "container_tasks_state"),
    ("container_last_seen", "container_last_seen"),
    ("node_memory_pressure", "kube_node_status_condition"),
    ("node_disk_pressure", "kube_node_status_condition"),
    ("node_pid_pressure", "kube_node_status_condition"),
    ("node_ready", "kube_node_status_condition")
  ]

  /** `get_metrics_config` of the collection system. */
  const ColetaCatalogue: seq<(string, string)> := [
    ("cpu_usage_total", "rate(container_cpu_usage_seconds_total[5m])"),
    ("cpu_user", "rate(container_cpu_user_seconds_total[5m])"),
    ("cpu_system", "rate(container_cpu_system_seconds_total[5m])"),
    ("cpu_throttled_periods", "rate(container_cpu_cfs_throttled_periods_total[5m])"),
    ("cpu_throttled_time", "rate(container_cpu_cfs_throttled_seconds_total[5m])"),
    ("memory_usage_bytes", "container_memory_usage_bytes"),
    ("memory_working_set_bytes", "container_memory_working_set_bytes"),
    ("memory_rss", "container_memory_rss"),
    ("memory_cache", "container_memory_cache"),
    ("memory_swap", "container_memory_swap"),
    ("memory_max_usage", "container_memory_max_usage_bytes"),
    ("memory_failures", "rate(container_memory_failures_total[5m])"),
    ("memory_limit", "container_spec_memory_limit_bytes"),
    ("cpu_quota", "container_spec_cpu_quota"),
    ("cpu_period", "container_spec_cpu_period"),
    ("network_rx_bytes", "rate(container_network_receive_bytes_total[5m])"),
    ("network_tx_bytes", "rate(container_network_transmit_bytes_total[5m])"),
    ("network_rx_errors", "rate(container_network_receive_errors_total[5m])"),
    ("network_tx_errors", "rate(container_network_transmit_errors_total[5m])"),
    ("fs_usage_bytes", "container_fs_usage_bytes"),
    ("fs_limit_bytes", "container_fs_limit_bytes"),
    ("fs_reads", "rate(container_fs_reads_bytes_total[5m])"),
    ("fs_writes", "rate(container_fs_writes_bytes_total[5m])"),
    ("processes", "container_processes"),
    ("threads", "container_threads")
  ]

  // ---- Records built from a range query -------------------------------------

  /** One series of a `query_range` answer: its labels and its `(timestamp, value)` pairs. */
  datatype Series = Series(labels: map<string, string>, values: seq<(int, string)>)

  /** The decoded answer of `query_range`; `None` in its place is a failed request. */
  datatype RangeResponse = RangeResponse(status: string, result: seq<Series>)

  /** One raw record: a metric value at a timestamp for one container. */
  datatype Sample = Sample(timestamp: int, metricName: string, value: Num,
                           pod: string, container: string, namespace: string, node: string)

  /** `item['metric'].get(k, '')` */
  function LabelOr(labels: map<string, string>, k: string): string
  {
    if k in labels then labels[k] else ""
  }

  /** `float(value) if value != 'NaN' else nan`; `None` is the `ValueError` of `float`. */
  function SampleValue(v: string): (r: Option<Num>)
    ensures r == ParseFloat(v)
  {
    NaNLiteral();
    if v == "NaN" then Some(NaN) else ParseFloat(v)
  }

  function MakeSample(name: string, labels: map<string, string>, ts: int, value: Num): Sample
  {
    Sample(ts, name, value, LabelOr(labels, "pod"), LabelOr(labels, "container"),
           LabelOr(labels, "namespace"), LabelOr(labels, "node"))
  }

  datatype ExtractError =
    | RateWithoutWindow(metricName: string)  // IndexError in the lab copy's rewrite
    | BadValue(metricName: string, value: string)

  /** Records of one series, in order; the first unparsable value aborts. */
  function PointSamples(name: string, labels: map<string, string>, points: seq<(int, string)>): Result<seq<Sample>, ExtractError>
  {
    if points == [] then Ok([])
    else match PointSamples(name, labels, points[..|points| - 1])
      case Err(e) => Err(e)
      case Ok(prefix) =>
        var p := points[|points| - 1];
        match SampleValue(p.1)
        case None => Err(BadValue(name, p.1))
        case Some(v) => Ok(prefix + [MakeSample(name, labels, p.0, v)])
  }

  function SeriesSamples(name: string, series: seq<Series>): Result<seq<Sample>, ExtractError>
  {
    if series == [] then Ok([])
    else match SeriesSamples(name, series[..|series| - 1])
      case Err(e) => Err(e)
      case Ok(prefix) =>
        var s := series[|series| - 1];
        match PointSamples(name, s.labels, s.values)
        case Err(e) => Err(e)
        case Ok(more) => Ok(prefix + more)
  }

  /** Samples of one answer: nothing unless the request succeeded with status `success`. */
  function ResponseSamples(name: string, response: Option<RangeResponse>): Result<seq<Sample>, ExtractError>
  {
    if response.Some? && response.value.status == "success" then SeriesSamples(name, response.value.result)
    else Ok([])
  }

  /** What `extract_metrics` returns: the queries it sent (`metricas`) and the records. */
  datatype Extraction = Extraction(queries: seq<(string, string)>, samples: seq<Sample>)

  /**
   * The extraction over a catalogue of `(metric name, template)` pairs, in
   * catalogue order; `prometheus` answers each query.
   */
  function ExtractSpec(copy: Copy, catalogue: seq<(string, string)>, podFilter: Option<string>,
                       namespace: Option<string>, prometheus: string -> Option<RangeResponse>): Result<Extraction, ExtractError>
  {
    if catalogue == [] then Ok(Extraction([], []))
    else match ExtractSpec(copy, catalogue[..|catalogue| - 1], podFilter, namespace, prometheus)
      case Err(e) => Err(e)
      case Ok(prefix) =>
        match EntryResult(copy, catalogue[|catalogue| - 1], podFilter, namespace, prometheus)
        case Err(e) => Err(e)
        case Ok(x) => Ok(Extraction(prefix.queries + [x.0], prefix.samples + x.1))
  }

  /** One catalogue entry: the query sent and the records it produced. */
  function EntryResult(copy: Copy, entry: (string, string), podFilter: Option<string>,
                       namespace: Option<string>, prometheus: string -> Option<RangeResponse>)
    : Result<((string, string), seq<Sample>), ExtractError>
  {
    match Query(copy, entry.1, Join(Filters(copy, entry.0, podFilter, namespace), ","))
    case None => Err(RateWithoutWindow(entry.0))
    case Some(q) =>
      match ResponseSamples(entry.0, prometheus(q))
      case Err(e) => Err(e)
      case Ok(more) => Ok(((entry.0, q), more))
  }

  method PointsToSamples(name: string, labels: map<string, string>, points: seq<(int, string)>)
    returns (r: Result<seq<Sample>, ExtractError>)
    ensures r == PointSamples(name, labels, points)
  {
    var acc: seq<Sample> := [];
    var i := 0;
    while i < |points|
      invariant 0 <= i <= |points|
      invariant PointSamples(name, labels, points[..i]) == Ok(acc)
    {
      assert points[..i + 1][..i] == points[..i];
      var (ts, value) := points[i];
      var v := SampleValue(value);
      if v.None? {
        assert PointSamples(name, labels, points[..i + 1]).Err?;
        PointErrorPersists(name, labels, points, i + 1);
        return Err(BadValue(name, value));
      }
      acc := acc + [MakeSample(name, labels, ts, v.value)];
      i := i + 1;
    }
    assert points[..i] == points;
    r := Ok(acc);
  }

  lemma {:induction false} PointErrorPersists(name: string, labels: map<string, string>, points: seq<(int, string)>, k: nat)
    requires 1 <= k <= |points|
    requires PointSamples(name, labels, points[..k]).Err?
    ensures PointSamples(name, labels, points) == PointSamples(name, labels, points[..k])
    decreases |points| - k
  {
    if k < |points| {
      assert points[..k + 1][..k] == points[..k];
      PointErrorPersists(name, labels, points, k + 1);
    } else {
      assert points[..k] == points;
    }
  }

  lemma {:induction false} SeriesErrorPersists(name: string, series: seq<Series>, k: nat)
    requires 1 <= k <= |series|
    requires SeriesSamples(name, series[..k]).Err?
    ensures SeriesSamples(name, series) == SeriesSamples(name, series[..k])
    decreases |series| - k
  {
    if k < |series| {
      assert series[..k + 1][..k] == series[..k];
      SeriesErrorPersists(name, series, k + 1);
    } else {
      assert series[..k] == series;
    }
  }

  method SeriesToSamples(name: string, series: seq<Series>) returns (r: Result<seq<Sample>, ExtractError>)
    ensures r == SeriesSamples(name, series)
  {
    var acc: seq<Sample> := [];
    var i := 0;
    while i < |series|
      invariant 0 <= i <= |series|
      invariant SeriesSamples(name, series[..i]) == Ok(acc)
    {
      assert series[..i + 1][..i] == series[..i];
      var more := PointsToSamples(name, series[i].labels, series[i].values);
      if more.Err? {
        SeriesErrorPersists(name, series, i + 1);
        return more;
      }
      acc := acc + more.value;
      i := i + 1;
    }
    assert series[..i] == series;
    r := Ok(acc);
  }

  lemma {:induction false} ExtractErrorPersists(copy: Copy, catalogue: seq<(string, string)>, podFilter: Option<string>,
                                                namespace: Option<string>, prometheus: string -> Option<RangeResponse>, k: nat)
    requires 1 <= k <= |catalogue|
    requires ExtractSpec(copy, catalogue[..k], podFilter, namespace, prometheus).Err?
    ensures ExtractSpec(copy, catalogue, podFilter, namespace, prometheus) == ExtractSpec(copy, catalogue[..k], podFilter, namespace, prometheus)
    decreases |catalogue| - k
  {
    if k < |catalogue| {
      assert catalogue[..k + 1][..k] == catalogue[..k];
      ExtractErrorPersists(copy, catalogue, podFilter, namespace, prometheus, k + 1);
    } else {
      assert catalogue[..k] == catalogue;
    }
  }

  method ExtractEntry(copy: Copy, entry: (string, string), podFilter: Option<string>,
                      namespace: Option<string>, prometheus: string -> Option<RangeResponse>)
    returns (r: Result<((string, string), seq<Sample>), ExtractError>)
    ensures r == EntryResult(copy, entry, podFilter, namespace, prometheus)
  {
    var (metricName, template) := entry;
    var filters := Filters(copy, metricName, podFilter, namespace);
    var query := Query(copy, template, Join(filters, ","));
    if query.None? {
      return Err(RateWithoutWindow(metricName));
    }
    var response := prometheus(query.value);
    var samples: seq<Sample> := [];
    if response.Some? && response.value.status == "success" {
      var more := SeriesToSamples(metricName, response.value.result);
      if more.Err? {
        return Err(more.error);
      }
      samples := more.value;
    }
    r := Ok(((metricName, query.value), samples));
  }

  /** `extract_metrics`: one query per catalogue entry, records appended in order. */
  method ExtractMetrics(copy: Copy, catalogue: seq<(string, string)>, podFilter: Option<string>,
                        namespace: Option<string>, prometheus: string -> Option<RangeResponse>)
    returns (r: Result<Extraction, ExtractError>)
    ensures r == ExtractSpec(copy, catalogue, podFilter, namespace, prometheus)
  {
    var queries: seq<(string, string)> := [];
    var samples: seq<Sample> := [];
    var i := 0;
    while i < |catalogue|
      invariant 0 <= i <= |catalogue|
      invariant ExtractSpec(copy, catalogue[..i], podFilter, namespace, prometheus) == Ok(Extraction(queries, samples))
    {
      assert catalogue[..i + 1][..i] == catalogue[..i];
      var x := ExtractEntry(copy, catalogue[i], podFilter, namespace, prometheus);
      if x.Err? {
        ExtractErrorPersists(copy, catalogue, podFilter, namespace, prometheus, i + 1);
        return Err(x.error);
      }
      queries := queries + [x.value.0];
      samples := samples + x.value.1;
      i := i + 1;
    }
    assert catalogue[..i] == catalogue;
    r := Ok(Extraction(queries, samples));
  }

  // ---- Properties of the extraction -----------------------------------------

  /** Every record carries its series' labels, `''` where a label is missing. */
  predicate FromSeries(s: Sample, name: string, labels: map<string, string>)
  {
    s.metricName == name && s.pod == LabelOr(labels, "pod") && s.container == LabelOr(labels, "container")
    && s.namespace == LabelOr(labels, "namespace") && s.node == LabelOr(labels, "node")
  }

  lemma {:induction false} PointSamplesShape(name: string, labels: map<string, string>, points: seq<(int, string)>)
    requires PointSamples(name, labels, points).Ok?
    ensures |PointSamples(name, labels, points).value| == |points|
    ensures forall i :: 0 <= i < |points| ==>
      var s := PointSamples(name, labels, points).value[i];
      FromSeries(s, name, labels) && s.timestamp == points[i].0 && Some(s.value) == ParseFloat(points[i].1)
  {
    if points != [] {
      var init := points[..|points| - 1];
      var p := points[|points| - 1];
      var prefix := PointSamples(name, labels, init).value;
      PointSamplesShape(name, labels, init);
      assert forall i :: 0 <= i < |init| ==> init[i] == points[i];
      var v := SampleValue(p.1).value;
      assert PointSamples(name, labels, points).value == prefix + [MakeSample(name, labels, p.0, v)];
      AppendedSampleShape(name, labels, points, prefix, v);
    }
  }

  /** Appending the record of the last point keeps records and points aligned. */
  lemma AppendedSampleShape(name: string, labels: map<string, string>, points: seq<(int, string)>,
                            prefix: seq<Sample>, v: Num)
    requires points != [] && |prefix| == |points| - 1 && Some(v) == ParseFloat(points[|points| - 1].1)
    requires forall i :: 0 <= i < |prefix| ==>
      FromSeries(prefix[i], name, labels) && prefix[i].timestamp == points[i].0 && Some(prefix[i].value) == ParseFloat(points[i].1)
    ensures var all := prefix + [MakeSample(name, labels, points[|points| - 1].0, v)];
      |all| == |points| &&
      forall i :: 0 <= i < |points| ==>
        FromSeries(all[i], name, labels) && all[i].timestamp == points[i].0 && Some(all[i].value) == ParseFloat(points[i].1)
  {
    var all := prefix + [MakeSample(name, labels, points[|points| - 1].0, v)];
    forall i | 0 <= i < |points|
      ensures FromSeries(all[i], name, labels) && all[i].timestamp == points[i].0 && Some(all[i].value) == ParseFloat(points[i].1)
    {
      if i < |prefix| {
        assert all[i] == prefix[i];
      } else {
        assert i == |points| - 1 && all[i] == MakeSample(name, labels, points[|points| - 1].0, v);
      }
    }
  }

  /** One query is recorded per catalogue entry, in catalogue order. */
  lemma {:induction false} OneQueryPerEntry(copy: Copy, catalogue: seq<(string, string)>, podFilter: Option<string>,
                                            namespace: Option<string>, prometheus: string -> Option<RangeResponse>)
    requires ExtractSpec(copy, catalogue, podFilter, namespace, prometheus).Ok?
    ensures var x := ExtractSpec(copy, catalogue, podFilter, namespace, prometheus).value;
      |x.queries| == |catalogue| && forall i :: 0 <= i < |catalogue| ==> x.queries[i].0 == catalogue[i].0
  {
    if catalogue != [] {
      var init := catalogue[..|catalogue| - 1];
      OneQueryPerEntry(copy, init, podFilter, namespace, prometheus);
    }
  }

  lemma EntryNamed(copy: Copy, entry: (string, string), podFilter: Option<string>,
                   namespace: Option<string>, prometheus: string -> Option<RangeResponse>)
    requires EntryResult(copy, entry, podFilter, namespace, prometheus).Ok?
    ensures forall s :: s in EntryResult(copy, entry, podFilter, namespace, prometheus).value.1 ==> s.metricName == entry.0
  {
    var q := Query(copy, entry.1, Join(Filters(copy, entry.0, podFilter, namespace), ",")).value;
    if prometheus(q).Some? && prometheus(q).value.status == "success" {
      SeriesSamplesNamed(entry.0, prometheus(q).value.result);
    }
  }

  /** Every record belongs to a metric of the catalogue. */
  lemma {:induction false} ExtractedNamesFromCatalogue(copy: Copy, catalogue: seq<(string, string)>, podFilter: Option<string>,
                                                       namespace: Option<string>, prometheus: string -> Option<RangeResponse>)
    requires ExtractSpec(copy, catalogue, podFilter, namespace, prometheus).Ok?
    ensures forall s :: s in ExtractSpec(copy, catalogue, podFilter, namespace, prometheus).value.samples ==>
      exists i :: 0 <= i < |catalogue| && catalogue[i].0 == s.metricName
  {
    if catalogue != [] {
      var init := catalogue[..|catalogue| - 1];
      var entry := catalogue[|catalogue| - 1];
      ExtractedNamesFromCatalogue(copy, init, podFilter, namespace, prometheus);
      EntryNamed(copy, entry, podFilter, namespace, prometheus);
      var prefix := ExtractSpec(copy, init, podFilter, namespace, prometheus).value;
      var more := EntryResult(copy, entry, podFilter, namespace, prometheus).value.1;
      assert ExtractSpec(copy, catalogue, podFilter, namespace, prometheus).value.samples == prefix.samples + more;
      forall s | s in prefix.samples + more
        ensures exists i :: 0 <= i < |catalogue| && catalogue[i].0 == s.metricName
      {
        if s in prefix.samples {
          var i :| 0 <= i < |init| && init[i].0 == s.metricName;
          assert catalogue[i] == init[i];
        } else {
          assert catalogue[|catalogue| - 1].0 == s.metricName;
        }
      }
    }
  }

  lemma {:induction false} SeriesSamplesNamed(name: string, series: seq<Series>)
    requires SeriesSamples(name, series).Ok?
    ensures forall s :: s in SeriesSamples(name, series).value ==> s.metricName == name
  {
    if series != [] {
      SeriesSamplesNamed(name, series[..|series| - 1]);
      var last := series[|series| - 1];
      PointSamplesShape(name, last.labels, last.values);
    }
  }
}
