// The per-container records of the cAdvisor pod collector
// (apps/cadvisor-metrics-collector/src/pod_metrics_collector.py): samples grouped by
// container, the record fields filled from a group, the dataframe's guarded columns,
// the pod test on the REST API's container info and the order of the two methods.
module PodCollector {
  import opened Wrappers
  import opened Numbers
  import opened OrderedDicts
  import opened JsonValues
  import opened Strings
  import opened Averages
  import opened PromText

  // ------------------------------------------------------------ grouping

  /** `labels.get(k, default)` */
  function LabelOr(labels: map<string, string>, k: string, default: string): (r: string)
    ensures k in labels ==> r == labels[k]
    ensures k !in labels ==> r == default
  {
    if k in labels then labels[k] else default
  }

  /** The container's name: the `name` label, else `container`, else `unknown`. */
  function ContainerName(labels: map<string, string>): (r: string)
    ensures "name" in labels ==> r == labels["name"]
    ensures "name" !in labels && "container" in labels ==> r == labels["container"]
    ensures "name" !in labels && "container" !in labels ==> r == "unknown"
  {
    LabelOr(labels, "name", LabelOr(labels, "container", "unknown"))
  }

  /** The group key: the `id` label, falling back to the container's name. */
  function ContainerId(labels: map<string, string>): (r: string)
    ensures "id" in labels ==> r == labels["id"]
    ensures "id" !in labels ==> r == ContainerName(labels)
  {
    LabelOr(labels, "id", ContainerName(labels))
  }

  /** A container entry: its name, pod, namespace and its metrics by name. */
  datatype Group = Group(containerName: string, podName: string, namespace: string,
                         metrics: map<string, Sample>)

  /** One `(metric_name, metric)` pair as the grouping loops visit them. */
  type Entry = (string, Sample)

  /** The entry a container gets when its first sample is seen. */
  function Opened(labels: map<string, string>, pod: string): Group
  {
    Group(ContainerName(labels), pod, LabelOr(labels, "namespace", "unknown"), map[])
  }

  /** One inner-loop step of `_group_metrics_by_container`. */
  function AddEntry(cs: ODict<string, Group>, e: Entry, pod: string): (r: ODict<string, Group>)
    requires Valid(cs)
    ensures Valid(r)
  {
    var id := ContainerId(e.1.labels);
    var g := if id in cs.values then cs.values[id] else Opened(e.1.labels, pod);
    Put(cs, id, g.(metrics := g.metrics[e.0 := e.1]))
  }

  function Grouped(es: seq<Entry>, pod: string): (r: ODict<string, Group>)
    ensures Valid(r)
    decreases |es|
  {
    if es == [] then Empty() else AddEntry(Grouped(es[..|es| - 1], pod), es[|es| - 1], pod)
  }

  function Tagged(k: string, ss: seq<Sample>): (r: seq<Entry>)
    ensures |r| == |ss| && forall i :: 0 <= i < |ss| ==> r[i] == (k, ss[i])
  {
    seq(|ss|, i requires 0 <= i < |ss| => (k, ss[i]))
  }

  /** What the two loops over `metrics_data.items()` visit: each name's samples, in key order. */
  function Entries(keys: seq<string>, values: map<string, seq<Sample>>): seq<Entry>
    decreases |keys|
  {
    if keys == [] then []
    else
      var k := keys[|keys| - 1];
      Entries(keys[..|keys| - 1], values) + Tagged(k, if k in values then values[k] else [])
  }

  /** A container is a key iff one of the samples names it. */
  lemma {:induction false} GroupedKeys(es: seq<Entry>, pod: string, id: string)
    ensures id in Grouped(es, pod).values <==> exists j :: 0 <= j < |es| && ContainerId(es[j].1.labels) == id
    decreases |es|
  {
    if es != [] {
      var init := es[..|es| - 1];
      GroupedKeys(init, pod, id);
      NamedSnoc(es, init, id);
      AddEntryAt(Grouped(init, pod), es[|es| - 1], pod, id);
    }
  }

  /** A last entry names a container iff the earlier ones or the last one do. */
  lemma NamedSnoc(es: seq<Entry>, init: seq<Entry>, id: string)
    requires es != [] && init == es[..|es| - 1]
    ensures (exists j :: 0 <= j < |es| && ContainerId(es[j].1.labels) == id) <==>
      (exists j :: 0 <= j < |init| && ContainerId(init[j].1.labels) == id) ||
      ContainerId(es[|es| - 1].1.labels) == id
  {
    assert forall j :: 0 <= j < |init| ==> init[j] == es[j];
  }

  /** The same for entries of one container carrying one metric name. */
  lemma NamedMetricSnoc(es: seq<Entry>, init: seq<Entry>, id: string, m: string)
    requires es != [] && init == es[..|es| - 1]
    ensures (exists j :: 0 <= j < |es| && ContainerId(es[j].1.labels) == id && es[j].0 == m) <==>
      (exists j :: 0 <= j < |init| && ContainerId(init[j].1.labels) == id && init[j].0 == m) ||
      (ContainerId(es[|es| - 1].1.labels) == id && es[|es| - 1].0 == m)
  {
    assert forall j :: 0 <= j < |init| ==> init[j] == es[j];
  }

  lemma GroupedSnoc(es: seq<Entry>, e: Entry, pod: string)
    ensures Grouped(es + [e], pod) == AddEntry(Grouped(es, pod), e, pod)
  {
    assert (es + [e])[..|es|] == es;
  }

  /** Grouping a longer list is one more step after grouping all but its last entry. */
  lemma GroupedAppendLast(a: seq<Entry>, post: seq<Entry>, pod: string)
    requires post != []
    ensures Grouped(a + post, pod) == AddEntry(Grouped(a + post[..|post| - 1], pod), post[|post| - 1], pod)
  {
    assert a + post == (a + post[..|post| - 1]) + [post[|post| - 1]];
    GroupedSnoc(a + post[..|post| - 1], post[|post| - 1], pod);
  }

  /** The first sample of a container fixes its name, pod and namespace for good. */
  lemma {:induction false} FirstSampleFixesGroup(pre: seq<Entry>, e: Entry, post: seq<Entry>, pod: string)
    requires ContainerId(e.1.labels) !in Grouped(pre, pod).values
    ensures var id := ContainerId(e.1.labels);
      var d := Grouped(pre + [e] + post, pod);
      id in d.values && d.values[id].containerName == ContainerName(e.1.labels) &&
      d.values[id].podName == pod && d.values[id].namespace == LabelOr(e.1.labels, "namespace", "unknown")
    decreases |post|
  {
    if post == [] {
      assert pre + [e] + post == pre + [e];
      GroupedSnoc(pre, e, pod);
    } else {
      var init := post[..|post| - 1];
      FirstSampleFixesGroup(pre, e, init, pod);
      GroupedAppendLast(pre + [e], post, pod);
      AddEntryAt(Grouped(pre + [e] + init, pod), post[|post| - 1], pod, ContainerId(e.1.labels));
    }
  }

  /** What one step does to the entry of a container `id`. */
  lemma AddEntryAt(cs: ODict<string, Group>, e: Entry, pod: string, id: string)
    requires Valid(cs)
    ensures var r := AddEntry(cs, e, pod);
      (id in r.values <==> id in cs.values || id == ContainerId(e.1.labels)) &&
      (id != ContainerId(e.1.labels) && id in cs.values ==> r.values[id] == cs.values[id]) &&
      (id == ContainerId(e.1.labels) ==>
        r.values[id].metrics == (if id in cs.values then cs.values[id].metrics else map[])[e.0 := e.1])
  {
  }

  /** A metric name is recorded for a container iff one of its samples carries that name. */
  lemma {:induction false} GroupedMetricKeys(es: seq<Entry>, pod: string, id: string, m: string)
    requires id in Grouped(es, pod).values
    ensures m in Grouped(es, pod).values[id].metrics <==>
      exists j :: 0 <= j < |es| && ContainerId(es[j].1.labels) == id && es[j].0 == m
    decreases |es|
  {
    var init := es[..|es| - 1];
    var e := es[|es| - 1];
    var d := Grouped(init, pod);
    AddEntryAt(d, e, pod, id);
    NamedMetricSnoc(es, init, id, m);
    if id in d.values {
      GroupedMetricKeys(init, pod, id, m);
    } else {
      GroupedKeys(init, pod, id);
    }
  }

  /** The two writes of the loop body (open the entry if new, then set the metric) are one step. */
  lemma TwoWrites(cs: ODict<string, Group>, e: Entry, pod: string)
    requires Valid(cs)
    ensures var id := ContainerId(e.1.labels);
      var withEntry := if id !in cs.values then Put(cs, id, Opened(e.1.labels, pod)) else cs;
      var g := withEntry.values[id];
      Put(withEntry, id, g.(metrics := g.metrics[e.0 := e.1])) == AddEntry(cs, e, pod)
  {
    var id := ContainerId(e.1.labels);
    if id !in cs.values {
      var g := Opened(e.1.labels, pod);
      PutPut(cs, id, g, g.(metrics := g.metrics[e.0 := e.1]));
    }
  }

  /** A later sample of the same container and metric name replaces the earlier one. */
  lemma {:induction false} LastSampleWins(pre: seq<Entry>, e: Entry, post: seq<Entry>, pod: string)
    requires forall j :: 0 <= j < |post| ==>
      ContainerId(post[j].1.labels) != ContainerId(e.1.labels) || post[j].0 != e.0
    ensures var id := ContainerId(e.1.labels);
      var d := Grouped(pre + [e] + post, pod);
      id in d.values && e.0 in d.values[id].metrics && d.values[id].metrics[e.0] == e.1
    decreases |post|
  {
    if post == [] {
      assert pre + [e] + post == pre + [e];
      GroupedSnoc(pre, e, pod);
    } else {
      var init := post[..|post| - 1];
      assert forall j :: 0 <= j < |init| ==> init[j] == post[j];
      LastSampleWins(pre, e, init, pod);
      GroupedAppendLast(pre + [e], post, pod);
      AddEntryAt(Grouped(pre + [e] + init, pod), post[|post| - 1], pod, ContainerId(e.1.labels));
    }
  }

  lemma EntriesStep(keys: seq<string>, values: map<string, seq<Sample>>, i: nat)
    requires i < |keys| && keys[i] in values
    ensures Entries(keys[..i + 1], values) == Entries(keys[..i], values) + Tagged(keys[i], values[keys[i]])
  {
    assert keys[..i + 1][..i] == keys[..i];
  }

  /** One inner-loop step extends the visited entries by one. */
  lemma InnerStep(done: seq<Entry>, k: string, ss: seq<Sample>, j: nat, pod: string)
    requires j < |ss|
    ensures Grouped(done + Tagged(k, ss[..j + 1]), pod) ==
            AddEntry(Grouped(done + Tagged(k, ss[..j]), pod), (k, ss[j]), pod)
  {
    assert Tagged(k, ss[..j + 1]) == Tagged(k, ss[..j]) + [(k, ss[j])];
    assert done + Tagged(k, ss[..j + 1]) == (done + Tagged(k, ss[..j])) + [(k, ss[j])];
    GroupedSnoc(done + Tagged(k, ss[..j]), (k, ss[j]), pod);
  }

  /** `_group_metrics_by_container` */
  method GroupMetricsByContainer(metricsData: ODict<string, seq<Sample>>, pod: string)
    returns (containers: ODict<string, Group>)
    requires Valid(metricsData)
    ensures containers == Grouped(Entries(metricsData.keys, metricsData.values), pod)
  {
    containers := Empty();
    for i := 0 to |metricsData.keys|
      invariant containers == Grouped(Entries(metricsData.keys[..i], metricsData.values), pod)
    {
      var metricName := metricsData.keys[i];
      assert metricName in metricsData.values;
      var metricList := metricsData.values[metricName];
      EntriesStep(metricsData.keys, metricsData.values, i);
      containers := GroupSamples(containers, metricName, metricList, pod, Entries(metricsData.keys[..i], metricsData.values));
    }
    assert metricsData.keys[..|metricsData.keys|] == metricsData.keys;
  }

  /** The inner loop over the samples of one metric name. */
  method GroupSamples(containers: ODict<string, Group>, metricName: string, metricList: seq<Sample>, pod: string,
                      ghost done: seq<Entry>)
    returns (r: ODict<string, Group>)
    requires containers == Grouped(done, pod)
    ensures r == Grouped(done + Tagged(metricName, metricList), pod)
  {
    r := containers;
    assert done + Tagged(metricName, metricList[..0]) == done;
    for j := 0 to |metricList|
      invariant r == Grouped(done + Tagged(metricName, metricList[..j]), pod)
    {
      InnerStep(done, metricName, metricList, j, pod);
      r := GroupSample(r, metricName, metricList[j], pod);
    }
    assert metricList[..|metricList|] == metricList;
  }

  /** The inner loop body: open the container's entry if it is new, then set the metric. */
  method GroupSample(containers: ODict<string, Group>, metricName: string, metric: Sample, pod: string)
    returns (r: ODict<string, Group>)
    requires Valid(containers)
    ensures r == AddEntry(containers, (metricName, metric), pod)
  {
    var labels := metric.labels;
    var containerName := LabelOr(labels, "name", LabelOr(labels, "container", "unknown"));
    var containerId := LabelOr(labels, "id", containerName);
    TwoWrites(containers, (metricName, metric), pod);
    r := containers;
    if containerId !in r.values {
      r := Put(r, containerId, Group(containerName, pod, LabelOr(labels, "namespace", "unknown"), map[]));
    }
    var g := r.values[containerId];
    r := Put(r, containerId, g.(metrics := g.metrics[metricName := metric]));
  }

  // ----------------------------------------------------- record fields

  /** Python's `int(x)` on a float: truncation toward zero; `inf` and `nan` raise (`None`). */
  function Truncate(x: Num): (r: Option<int>)
    ensures r.Some? <==> x.Fin?
    ensures x.Fin? && x.r >= 0.0 ==> 0.0 <= x.r - r.value as real < 1.0
    ensures x.Fin? && x.r < 0.0 ==> 0.0 <= r.value as real - x.r < 1.0
  {
    match x
    case Fin(v) => Some(if v >= 0.0 then v.Floor else -((-v).Floor))
    case _ => None
  }

  /** One `if 'metric' in metrics: pod_metric.field = [int](metrics['metric']['value'])`. */
  datatype Rule = Rule(field: string, metric: string, integral: bool)

  /** The assignments of `_create_pod_metrics_from_prometheus`, in source order. */
  const Rules: seq<Rule> := [
    Rule("cpu_usage_total", "container_cpu_usage_seconds_total", false),
    Rule("cpu_usage_user", "container_cpu_user_seconds_total", false),
    Rule("cpu_usage_system", "container_cpu_system_seconds_total", false),
    Rule("cpu_throttled_seconds", "container_cpu_cfs_throttled_seconds_total", false),
    Rule("cpu_throttled_periods", "container_cpu_cfs_throttled_periods_total", true),
    Rule("memory_usage", "container_memory_usage_bytes", true),
    Rule("memory_working_set", "container_memory_working_set_bytes", true),
    Rule("memory_rss", "container_memory_rss", true),
    Rule("memory_cache", "container_memory_cache", true),
    Rule("memory_swap", "container_memory_swap", true),
    Rule("memory_limit", "container_spec_memory_limit_bytes", true),
    Rule("network_rx_bytes", "container_network_receive_bytes_total", true),
    Rule("network_tx_bytes", "container_network_transmit_bytes_total", true),
    Rule("network_rx_packets", "container_network_receive_packets_total", true),
    Rule("network_tx_packets", "container_network_transmit_packets_total", true),
    Rule("fs_usage", "container_fs_usage_bytes", true),
    Rule("fs_limit", "container_fs_limit_bytes", true),
    Rule("fs_reads", "container_fs_reads_total", true),
    Rule("fs_writes", "container_fs_writes_total", true),
    Rule("processes", "container_processes", true),
    Rule("threads", "container_threads", true),
    Rule("file_descriptors", "container_file_descriptors", true)
  ]

  /** The numeric fields of `PodMetrics`; every one defaults to 0. */
  const FieldNames: set<string> := {
    "cpu_usage_total", "cpu_usage_user", "cpu_usage_system", "cpu_usage_rate",
    "cpu_load_average", "cpu_throttled_seconds", "cpu_throttled_periods",
    "memory_usage", "memory_working_set", "memory_rss", "memory_cache", "memory_swap",
    "memory_max_usage", "memory_limit",
    "network_rx_bytes", "network_tx_bytes", "network_rx_packets", "network_tx_packets",
    "network_rx_errors", "network_tx_errors",
    "fs_usage", "fs_limit", "fs_reads", "fs_writes", "fs_read_bytes", "fs_write_bytes",
    "processes", "threads", "file_descriptors"
  }

  /** `PodMetrics`: the identifying fields and the numeric fields by name. */
  datatype PodMetrics = PodMetrics(podName: string, containerName: string, namespace: string,
                                   timestamp: real, fields: map<string, Num>)

  function Defaults(): (m: map<string, Num>)
    ensures m.Keys == FieldNames && forall k :: k in m ==> m[k] == Fin(0.0)
  {
    map k | k in FieldNames :: Fin(0.0)
  }

  /** The value a rule stores: the sample's value, truncated when the field is an `int`. */
  function Converted(rule: Rule, v: Num): Num
    requires rule.integral ==> v.Fin?
  {
    if rule.integral then Fin(Truncate(v).value as real) else v
  }

  predicate Converts(rules: seq<Rule>, metrics: map<string, Sample>)
  {
    forall i :: 0 <= i < |rules| && rules[i].integral && rules[i].metric in metrics ==>
      metrics[rules[i].metric].value.Fin?
  }

  /** The assignments run in order; the first `int()` of `inf` or `nan` aborts the record. */
  function Apply(fields: map<string, Num>, rules: seq<Rule>, metrics: map<string, Sample>): Option<map<string, Num>>
    decreases |rules|
  {
    if rules == [] then Some(fields)
    else
      var rule := rules[0];
      if rule.metric !in metrics then Apply(fields, rules[1..], metrics)
      else
        var v := metrics[rule.metric].value;
        if !rule.integral then Apply(fields[rule.field := v], rules[1..], metrics)
        else match Truncate(v)
          case None => None
          case Some(n) => Apply(fields[rule.field := Fin(n as real)], rules[1..], metrics)
  }

  predicate DistinctFields(rules: seq<Rule>)
  {
    forall i, j :: 0 <= i < j < |rules| ==> rules[i].field != rules[j].field
  }

  /** Applying distinct rules: it succeeds iff every `int` conversion it attempts is of a finite
      value, and then each field is set by its rule when the metric is present, else kept. */
  lemma {:induction false} ApplyFields(fields: map<string, Num>, rules: seq<Rule>, metrics: map<string, Sample>)
    requires DistinctFields(rules)
    ensures Apply(fields, rules, metrics).Some? <==> Converts(rules, metrics)
    ensures Apply(fields, rules, metrics).Some? ==>
      var r := Apply(fields, rules, metrics).value;
      (forall i :: 0 <= i < |rules| && rules[i].metric in metrics ==>
         rules[i].field in r && r[rules[i].field] == Converted(rules[i], metrics[rules[i].metric].value)) &&
      (forall k :: k in fields && (forall i :: 0 <= i < |rules| && rules[i].metric in metrics ==> rules[i].field != k) ==>
         k in r && r[k] == fields[k])
    ensures Apply(fields, rules, metrics).Some? ==>
      forall k :: k in Apply(fields, rules, metrics).value ==>
        k in fields || exists i :: 0 <= i < |rules| && rules[i].field == k
    decreases |rules|
  {
    if rules != [] {
      var rule := rules[0];
      var rest := rules[1..];
      assert DistinctFields(rest) by {
        forall i, j | 0 <= i < j < |rest| ensures rest[i].field != rest[j].field {
          assert rest[i] == rules[i + 1] && rest[j] == rules[j + 1];
        }
      }
      assert Converts(rules, metrics) <==>
        (rule.integral && rule.metric in metrics ==> metrics[rule.metric].value.Fin?) && Converts(rest, metrics) by {
        if Converts(rest, metrics) && (rule.integral && rule.metric in metrics ==> metrics[rule.metric].value.Fin?) {
          forall i | 0 <= i < |rules| && rules[i].integral && rules[i].metric in metrics
            ensures metrics[rules[i].metric].value.Fin?
          {
            if i > 0 { assert rules[i] == rest[i - 1]; }
          }
        }
        if Converts(rules, metrics) {
          forall i | 0 <= i < |rest| && rest[i].integral && rest[i].metric in metrics
            ensures metrics[rest[i].metric].value.Fin?
          {
            assert rest[i] == rules[i + 1];
          }
        }
      }
      var next := if rule.metric !in metrics then fields
                  else if rule.integral && !metrics[rule.metric].value.Fin? then fields
                  else fields[rule.field := Converted(rule, metrics[rule.metric].value)];
      ApplyFields(next, rest, metrics);
      if Apply(fields, rules, metrics).Some? {
        assert Apply(fields, rules, metrics) == Apply(next, rest, metrics);
        var r := Apply(fields, rules, metrics).value;
        forall i | 0 <= i < |rules| && rules[i].metric in metrics
          ensures rules[i].field in r && r[rules[i].field] == Converted(rules[i], metrics[rules[i].metric].value)
        {
          if i == 0 {
            forall j | 0 <= j < |rest| && rest[j].metric in metrics ensures rest[j].field != rule.field {
              assert rest[j] == rules[j + 1];
            }
          } else {
            assert rules[i] == rest[i - 1];
          }
        }
        forall k | k in fields && (forall i :: 0 <= i < |rules| && rules[i].metric in metrics ==> rules[i].field != k)
          ensures k in r && r[k] == fields[k]
        {
          forall i | 0 <= i < |rest| && rest[i].metric in metrics ensures rest[i].field != k {
            assert rest[i] == rules[i + 1];
          }
          assert rule.metric in metrics ==> rules[0].field != k;
        }
        forall k | k in r ensures k in fields || exists i :: 0 <= i < |rules| && rules[i].field == k {
          if k !in fields && k != rule.field {
            var i :| 0 <= i < |rest| && rest[i].field == k;
            assert rules[i + 1].field == k;
          } else if k !in fields {
            assert rules[0].field == k;
          }
        }
      }
    }
  }

  /** `_create_pod_metrics_from_prometheus`: a record for the group, or `None` when an `int()`
      conversion raises. `timestamp` is `datetime.now()`, passed in. */
  function FromPrometheus(g: Group, pod: string, now: real): (r: Option<PodMetrics>)
    ensures r.Some? ==> r.value.podName == pod && r.value.timestamp == now
  {
    match Apply(Defaults(), Rules, g.metrics)
    case None => None
    case Some(f) => Some(PodMetrics(pod, g.containerName, g.namespace, now, f))
  }

  /** The fields that the assignments set, in source order. */
  const AssignedFields: seq<string> := [
    "cpu_usage_total", "cpu_usage_user", "cpu_usage_system", "cpu_throttled_seconds", "cpu_throttled_periods",
    "memory_usage", "memory_working_set", "memory_rss", "memory_cache", "memory_swap", "memory_limit",
    "network_rx_bytes", "network_tx_bytes", "network_rx_packets", "network_tx_packets",
    "fs_usage", "fs_limit", "fs_reads", "fs_writes", "processes", "threads", "file_descriptors"]

  lemma RulesAssign()
    ensures |Rules| == |AssignedFields| && forall i :: 0 <= i < |Rules| ==> Rules[i].field == AssignedFields[i]
  {
  }

  lemma AssignedFieldsDistinct()
    ensures forall i, j :: 0 <= i < j < |AssignedFields| ==> AssignedFields[i] != AssignedFields[j]
  {
  }

  /** No two assignments set the same field. */
  lemma RulesDistinct()
    ensures DistinctFields(Rules)
  {
    RulesAssign();
    AssignedFieldsDistinct();
  }

  lemma RulesNameFields()
    ensures forall i :: 0 <= i < |Rules| ==> Rules[i].field in FieldNames
  {
  }

  /** `ApplyFields` on a full set of defaults: the fields stay exactly `names`. */
  lemma ApplyOverDefaults(fields: map<string, Num>, rules: seq<Rule>, metrics: map<string, Sample>)
    requires DistinctFields(rules)
    requires forall i :: 0 <= i < |rules| ==> rules[i].field in fields
    ensures Apply(fields, rules, metrics).Some? <==> Converts(rules, metrics)
    ensures Apply(fields, rules, metrics).Some? ==>
      var r := Apply(fields, rules, metrics).value;
      r.Keys == fields.Keys &&
      (forall i :: 0 <= i < |rules| && rules[i].metric in metrics ==>
         r[rules[i].field] == Converted(rules[i], metrics[rules[i].metric].value)) &&
      (forall k :: k in fields && (forall i :: 0 <= i < |rules| && rules[i].metric in metrics ==> rules[i].field != k) ==>
         r[k] == fields[k])
  {
    ApplyFields(fields, rules, metrics);
    if Apply(fields, rules, metrics).Some? {
      var r := Apply(fields, rules, metrics).value;
      forall k | k in fields ensures k in r {
        if exists i :: 0 <= i < |rules| && rules[i].metric in metrics && rules[i].field == k {
          var i :| 0 <= i < |rules| && rules[i].metric in metrics && rules[i].field == k;
          assert rules[i].field in r;
        }
      }
    }
  }

  /** A record is made iff every `int` field's metric, when present, is finite; it names the
      pod and the group's container and namespace, and holds every field. */
  lemma FromPrometheusMade(g: Group, pod: string, now: real)
    ensures FromPrometheus(g, pod, now).Some? <==> Converts(Rules, g.metrics)
    ensures FromPrometheus(g, pod, now).Some? ==>
      var m := FromPrometheus(g, pod, now).value;
      m.podName == pod && m.containerName == g.containerName && m.namespace == g.namespace &&
      m.timestamp == now && m.fields.Keys == FieldNames
  {
    DefaultsApplied(g.metrics);
  }

  /** Each listed field holds its metric's (truncated) value when the metric is present, and
      every other field of `FieldNames` holds 0. */
  ghost predicate AssignedFrom(fields: map<string, Num>, metrics: map<string, Sample>)
    requires Converts(Rules, metrics)
  {
    (forall i :: 0 <= i < |Rules| && Rules[i].metric in metrics ==>
       Rules[i].field in fields && fields[Rules[i].field] == Converted(Rules[i], metrics[Rules[i].metric].value)) &&
    (forall k :: k in FieldNames && (forall i :: 0 <= i < |Rules| && Rules[i].metric in metrics ==> Rules[i].field != k) ==>
       k in fields && fields[k] == Fin(0.0))
  }

  /** In a record made, the fields are assigned from the group's metrics. */
  lemma FromPrometheusFields(g: Group, pod: string, now: real)
    ensures FromPrometheus(g, pod, now).Some? ==>
      Converts(Rules, g.metrics) && AssignedFrom(FromPrometheus(g, pod, now).value.fields, g.metrics)
  {
    DefaultsApplied(g.metrics);
  }

  /** The assignments over the defaults, for the metrics of a group. */
  lemma DefaultsApplied(metrics: map<string, Sample>)
    ensures Apply(Defaults(), Rules, metrics).Some? <==> Converts(Rules, metrics)
    ensures Apply(Defaults(), Rules, metrics).Some? ==>
      Apply(Defaults(), Rules, metrics).value.Keys == FieldNames &&
      AssignedFrom(Apply(Defaults(), Rules, metrics).value, metrics)
  {
    RulesDistinct();
    RulesNameFields();
    ApplyOverDefaults(Defaults(), Rules, metrics);
  }

  // --------------------------------------------- the Prometheus method

  /** The records of the containers in `keys`, in that order, skipping those that failed. */
  function Records(keys: seq<string>, cs: map<string, Group>, pod: string, now: real): (r: seq<PodMetrics>)
    ensures |r| <= |keys|
    ensures forall j :: 0 <= j < |r| ==> r[j].podName == pod && r[j].timestamp == now
    decreases |keys|
  {
    if keys == [] then []
    else
      var k := keys[|keys| - 1];
      var made := if k in cs then FromPrometheus(cs[k], pod, now) else None;
      var init := Records(keys[..|keys| - 1], cs, pod, now);
      if made.Some? then init + [made.value] else init
  }

  /** What `get_pod_metrics_from_prometheus` returns for the `/metrics` response
      (`None`: the request failed). */
  function PromRecords(response: Option<string>, pod: string, now: real): seq<PodMetrics>
  {
    match response
    case None => []
    case Some(text) =>
      var data := GroupByName(Kept(Split(text, '\n'), pod, now));
      if data.keys == [] then []
      else
        var cs := Grouped(Entries(data.keys, data.values), pod);
        Records(cs.keys, cs.values, pod, now)
  }

  /** Each record names the pod and the collection time, at most one per container, and each is
      the record of one of the containers. */
  lemma {:induction false} RecordsOfContainers(keys: seq<string>, cs: map<string, Group>, pod: string, now: real)
    ensures |Records(keys, cs, pod, now)| <= |keys|
    ensures forall r :: r in Records(keys, cs, pod, now) ==>
      r.podName == pod && r.timestamp == now && OfContainer(keys, cs, pod, now, r)
    decreases |keys|
  {
    if keys != [] {
      var init := keys[..|keys| - 1];
      RecordsOfContainers(init, cs, pod, now);
      forall r | r in Records(keys, cs, pod, now)
        ensures r.podName == pod && r.timestamp == now && OfContainer(keys, cs, pod, now, r)
      {
        if r in Records(init, cs, pod, now) {
          OfContainerLonger(keys, cs, pod, now, r);
        } else {
          var i := |keys| - 1;
          assert keys[i] in cs && FromPrometheus(cs[keys[i]], pod, now) == Some(r);
        }
      }
    }
  }

  /** `r` is the record of one of the containers `keys` names. */
  ghost predicate OfContainer(keys: seq<string>, cs: map<string, Group>, pod: string, now: real, r: PodMetrics)
  {
    exists i :: 0 <= i < |keys| && keys[i] in cs && FromPrometheus(cs[keys[i]], pod, now) == Some(r)
  }

  lemma OfContainerLonger(keys: seq<string>, cs: map<string, Group>, pod: string, now: real, r: PodMetrics)
    requires keys != [] && OfContainer(keys[..|keys| - 1], cs, pod, now, r)
    ensures OfContainer(keys, cs, pod, now, r)
  {
    var init := keys[..|keys| - 1];
    var i :| 0 <= i < |init| && init[i] in cs && FromPrometheus(cs[init[i]], pod, now) == Some(r);
    assert keys[i] == init[i];
  }

  lemma RecordsStep(keys: seq<string>, cs: map<string, Group>, pod: string, now: real, i: nat)
    requires i < |keys|
    ensures Records(keys[..i + 1], cs, pod, now) ==
      Records(keys[..i], cs, pod, now) +
      (if keys[i] in cs && FromPrometheus(cs[keys[i]], pod, now).Some?
       then [FromPrometheus(cs[keys[i]], pod, now).value] else [])
  {
    assert keys[..i + 1][..i] == keys[..i];
  }

  /** `get_pod_metrics_from_prometheus` */
  method PodMetricsFromPrometheus(response: Option<string>, pod: string, now: real)
    returns (podMetrics: seq<PodMetrics>)
    ensures podMetrics == PromRecords(response, pod, now)
  {
    podMetrics := [];
    if response.None? {
      return;
    }
    var metricsData := ParsePrometheusMetrics(response.value, pod, now);
    if metricsData.keys != [] {
      var containers := GroupMetricsByContainer(metricsData, pod);
      for i := 0 to |containers.keys|
        invariant podMetrics == Records(containers.keys[..i], containers.values, pod, now)
      {
        var containerPath := containers.keys[i];
        RecordsStep(containers.keys, containers.values, pod, now, i);
        assert containerPath in containers.values;
        var podMetric := FromPrometheus(containers.values[containerPath], pod, now);
        if podMetric.Some? {
          podMetrics := podMetrics + [podMetric.value];
        }
      }
      assert containers.keys[..|containers.keys|] == containers.keys;
    }
  }

  // ---------------------------------------------------- the dataframe

  function Field(m: PodMetrics, k: string): Num
  {
    if k in m.fields then m.fields[k] else Fin(0.0)
  }

  /** `x / (1024 * 1024) if x else 0` */
  function Mebibytes(x: Num): (r: Num)
    ensures x.Fin? ==> r == Fin(x.r / 1048576.0)
    ensures !x.Fin? ==> r == x
  {
    if x == Fin(0.0) then Fin(0.0) else Div(x, Fin(1048576.0))
  }

  /** `usage / limit * 100 if limit else 0` */
  function Utilization(usage: Num, limit: Num): (r: Num)
    ensures limit == Fin(0.0) ==> r == Fin(0.0)
    ensures usage.Fin? && limit.Fin? && limit.r != 0.0 ==> r == Fin(usage.r / limit.r * 100.0)
  {
    if limit == Fin(0.0) then Fin(0.0) else Mul(Div(usage, limit), Fin(100.0))
  }

  /** Usage within a positive limit is a percentage between 0 and 100. */
  lemma UtilizationInRange(usage: real, limit: real)
    requires 0.0 <= usage <= limit && limit > 0.0
    ensures Utilization(Fin(usage), Fin(limit)).Fin?
    ensures 0.0 <= Utilization(Fin(usage), Fin(limit)).r <= 100.0
  {
    DivideBound(0.0, 1.0, limit, usage);
  }

  /** A dataframe row: the record's fields and the columns computed from them. */
  datatype Row = Row(podName: string, containerName: string, namespace: string, timestamp: real,
                     fields: map<string, Num>, derived: map<string, Num>)

  function DataRow(m: PodMetrics): Row
  {
    Row(m.podName, m.containerName, m.namespace, m.timestamp, m.fields,
        map[
          "memory_usage_mb" := Mebibytes(Field(m, "memory_usage")),
          "memory_working_set_mb" := Mebibytes(Field(m, "memory_working_set")),
          "memory_utilization_pct" := Utilization(Field(m, "memory_usage"), Field(m, "memory_limit")),
          "network_rx_mb" := Mebibytes(Field(m, "network_rx_bytes")),
          "network_tx_mb" := Mebibytes(Field(m, "network_tx_bytes")),
          "fs_usage_mb" := Mebibytes(Field(m, "fs_usage")),
          "fs_utilization_pct" := Utilization(Field(m, "fs_usage"), Field(m, "fs_limit"))
        ])
  }

  /** The percentages of a row are 0 under a zero limit and within [0, 100] when the usage is
      within a positive limit. */
  lemma RowUtilization(m: PodMetrics, usage: string, limit: string, column: string)
    requires (usage, limit, column) in {("memory_usage", "memory_limit", "memory_utilization_pct"),
                                        ("fs_usage", "fs_limit", "fs_utilization_pct")}
    ensures Field(m, limit) == Fin(0.0) ==> DataRow(m).derived[column] == Fin(0.0)
    ensures Field(m, usage).Fin? && Field(m, limit).Fin? && 0.0 <= Field(m, usage).r <= Field(m, limit).r &&
            Field(m, limit).r > 0.0 ==>
      DataRow(m).derived[column].Fin? && 0.0 <= DataRow(m).derived[column].r <= 100.0
  {
    if Field(m, usage).Fin? && Field(m, limit).Fin? && 0.0 <= Field(m, usage).r <= Field(m, limit).r &&
       Field(m, limit).r > 0.0 {
      UtilizationInRange(Field(m, usage).r, Field(m, limit).r);
    }
  }

  /** `metrics_to_dataframe`: no records give an empty frame, otherwise one row per record. */
  method MetricsToDataframe(metrics: seq<PodMetrics>) returns (rows: seq<Row>)
    ensures |rows| == |metrics|
    ensures forall i :: 0 <= i < |metrics| ==> rows[i] == DataRow(metrics[i])
  {
    if metrics == [] {
      return [];
    }
    rows := [];
    for i := 0 to |metrics|
      invariant |rows| == i
      invariant forall j :: 0 <= j < i ==> rows[j] == DataRow(metrics[j])
    {
      rows := rows + [DataRow(metrics[i])];
    }
  }

  // ------------------------------------------------------ the REST API

  /** The labels under which the REST API names a container's pod. */
  const PodLabelKeys: seq<string> := ["io.kubernetes.pod.name", "pod_name", "pod"]

  /** `_is_pod_container`; `None` when `info`, its `spec` or their `labels` is not a dict
      (the `.get` raises, and the API method returns no records). */
  function IsPodContainer(info: Json, pod: string): (r: Option<bool>)
    ensures r.Some? <==> (info.JObj? && Get(info.fields, "spec", JObj([])).JObj? &&
                          Get(Get(info.fields, "spec", JObj([])).fields, "labels", JObj([])).JObj?)
    ensures r == Some(true) <==> (r.Some? &&
      exists i :: 0 <= i < |PodLabelKeys| &&
        Lookup(Get(Get(info.fields, "spec", JObj([])).fields, "labels", JObj([])).fields, PodLabelKeys[i]) == Some(JStr(pod)))
  {
    if !info.JObj? then None
    else
      var spec := Get(info.fields, "spec", JObj([]));
      if !spec.JObj? then None
      else
        var labels := Get(spec.fields, "labels", JObj([]));
        if !labels.JObj? then None
        else
          var podLabels := [Get(labels.fields, "io.kubernetes.pod.name", JNull),
                            Get(labels.fields, "pod_name", JNull),
                            Get(labels.fields, "pod", JNull)];
          assert (JStr(pod) in podLabels) <==>
                 exists i :: 0 <= i < |PodLabelKeys| && Lookup(labels.fields, PodLabelKeys[i]) == Some(JStr(pod)) by {
            assert forall i :: 0 <= i < 3 ==> podLabels[i] == Get(labels.fields, PodLabelKeys[i], JNull);
          }
          Some(JStr(pod) in podLabels)
  }

  // ------------------------------------------------------- both methods

  /** `collect_pod_metrics`: the Prometheus records, then the API records, each only when the
      method asks for it. The two fetches are passed in. */
  method CollectPodMetrics(method_: string, prometheusMetrics: seq<PodMetrics>, apiMetrics: seq<PodMetrics>)
    returns (metrics: seq<PodMetrics>)
    ensures method_ == "both" ==> metrics == prometheusMetrics + apiMetrics
    ensures method_ == "prometheus" ==> metrics == prometheusMetrics
    ensures method_ == "api" ==> metrics == apiMetrics
    ensures method_ !in {"both", "prometheus", "api"} ==> metrics == []
  {
    metrics := [];
    if method_ in ["both", "prometheus"] {
      metrics := metrics + prometheusMetrics;
    }
    if method_ in ["both", "api"] {
      metrics := metrics + apiMetrics;
    }
  }
}
