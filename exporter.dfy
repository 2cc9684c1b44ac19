// The Prometheus exporter of lab/cadvisor-metric-collector: eight range queries
// for one pod, merged into one record per (timestamp, container), sorted by
// time and given unit-converted columns.
module Exporter {
  import opened Wrappers
  import opened Strings
  import opened Numbers
  import opened NumberParsing
  import opened Sorting
  import opened OrderedDicts

  // ---------------------------------------------------------------- queries

  /** The label selector `{pod="P",namespace="NS"}` every query carries. */
  function Selector(pod: string, ns: string): string
  {
    "{pod=\"" + pod + "\",namespace=\"" + ns + "\"}"
  }

  /** `rate(<counter><selector>[1m])` */
  function Rate(counter: string, pod: string, ns: string): string
  {
    "rate(" + counter + Selector(pod, ns) + "[1m])"
  }

  const QueryNames: seq<string> := [
    "cpu_usage_cores", "cpu_usage_percent", "memory_usage_bytes", "memory_working_set_bytes",
    "network_receive_bytes", "network_transmit_bytes", "network_receive_packets",
    "network_transmit_packets"]

  /** The `queries` dictionary, in its insertion order. */
  function Queries(pod: string, ns: string): (qs: seq<(string, string)>)
    ensures |qs| == |QueryNames|
    ensures forall k :: 0 <= k < |qs| ==> qs[k].0 == QueryNames[k]
  {
    [("cpu_usage_cores", Rate("container_cpu_usage_seconds_total", pod, ns)),
     ("cpu_usage_percent", Rate("container_cpu_usage_seconds_total", pod, ns) + " * 100"),
     ("memory_usage_bytes", "container_memory_usage_bytes" + Selector(pod, ns)),
     ("memory_working_set_bytes", "container_memory_working_set_bytes" + Selector(pod, ns)),
     ("network_receive_bytes", Rate("container_network_receive_bytes_total", pod, ns)),
     ("network_transmit_bytes", Rate("container_network_transmit_bytes_total", pod, ns)),
     ("network_receive_packets", Rate("container_network_receive_packets_total", pod, ns)),
     ("network_transmit_packets", Rate("container_network_transmit_packets_total", pod, ns))]
  }

  lemma RateSelects(counter: string, pod: string, ns: string, tail: string)
    ensures Contains(Rate(counter, pod, ns) + tail, Selector(pod, ns))
  {
    assert Rate(counter, pod, ns) + tail == ("rate(" + counter) + Selector(pod, ns) + ("[1m])" + tail);
    ContainsConcat("rate(" + counter, Selector(pod, ns), "[1m])" + tail);
  }

  /** Every query is restricted to the pod and namespace asked for. */
  lemma QueriesSelectPod(pod: string, ns: string)
    ensures forall k :: 0 <= k < |Queries(pod, ns)| ==> Contains(Queries(pod, ns)[k].1, Selector(pod, ns))
  {
    var qs := Queries(pod, ns);
    var s := Selector(pod, ns);
    RateSelects("container_cpu_usage_seconds_total", pod, ns, "");
    assert Rate("container_cpu_usage_seconds_total", pod, ns) + "" == qs[0].1;
    RateSelects("container_cpu_usage_seconds_total", pod, ns, " * 100");
    ContainsConcat("container_memory_usage_bytes", s, "");
    assert "container_memory_usage_bytes" + s + "" == qs[2].1;
    ContainsConcat("container_memory_working_set_bytes", s, "");
    assert "container_memory_working_set_bytes" + s + "" == qs[3].1;
    RateSelects("container_network_receive_bytes_total", pod, ns, "");
    assert Rate("container_network_receive_bytes_total", pod, ns) + "" == qs[4].1;
    RateSelects("container_network_transmit_bytes_total", pod, ns, "");
    assert Rate("container_network_transmit_bytes_total", pod, ns) + "" == qs[5].1;
    RateSelects("container_network_receive_packets_total", pod, ns, "");
    assert Rate("container_network_receive_packets_total", pod, ns) + "" == qs[6].1;
    RateSelects("container_network_transmit_packets_total", pod, ns, "");
    assert Rate("container_network_transmit_packets_total", pod, ns) + "" == qs[7].1;
  }

  // --------------------------------------------------------------- replies

  /** One series of a `query_range` answer: its labels and its `[timestamp, "value"]` pairs. */
  datatype PromSeries = PromSeries(metric: map<string, string>, values: seq<(real, string)>)
  datatype PromReply = PromReply(status: string, result: seq<PromSeries>)

  /**
   * `query_prometheus`: the reply's `result` when its status is "success", and no
   * series otherwise. `None` stands for every exception the request or the JSON
   * decoding raises, which the source also turns into no series.
   */
  function QueryResult(reply: Option<PromReply>): (r: seq<PromSeries>)
    ensures reply.Some? && reply.value.status == "success" ==> r == reply.value.result
    ensures reply.None? || reply.value.status != "success" ==> r == []
  {
    if reply.Some? && reply.value.status == "success" then reply.value.result else []
  }

  // ------------------------------------------------------------------ merge

  /**
   * One `(timestamp, value)` pair of one series of the query `metric`, with
   * `float(value)` beside the text (`None` when it raises).
   */
  datatype Point = Point(metric: string, container: string, timestamp: real, value: string, parsed: Option<Num>)

  type MergeKey = (real, string)

  /** A row of the result: the four identifying columns and the metric columns. */
  datatype Record = Record(timestamp: real, container: string, pod: string, namespace: string,
                           metrics: map<string, Num>)

  /** `float(value)` raised `ValueError`; nothing in the collector catches it. */
  datatype MergeError = BadValue(value: string)

  /** `result['metric'].get('container', 'unknown')` */
  function ContainerOf(s: PromSeries): (c: string)
    ensures "container" in s.metric ==> c == s.metric["container"]
    ensures "container" !in s.metric ==> c == "unknown"
  {
    if "container" in s.metric then s.metric["container"] else "unknown"
  }

  function KeyOf(p: Point): MergeKey
  {
    (p.timestamp, p.container)
  }

  function SeriesPoints(name: string, s: PromSeries): (ps: seq<Point>)
    ensures |ps| == |s.values|
    ensures forall k :: 0 <= k < |ps| ==>
      ps[k] == Point(name, ContainerOf(s), s.values[k].0, s.values[k].1, ParseFloat(s.values[k].1))
  {
    seq(|s.values|, k requires 0 <= k < |s.values| =>
      Point(name, ContainerOf(s), s.values[k].0, s.values[k].1, ParseFloat(s.values[k].1)))
  }

  function ResultPoints(name: string, rs: seq<PromSeries>): seq<Point>
    decreases |rs|
  {
    if rs == [] then [] else ResultPoints(name, rs[..|rs| - 1]) + SeriesPoints(name, rs[|rs| - 1])
  }

  /** Every point of every series of every query, in the order the loops visit them. */
  function QueryPoints(qs: seq<(string, string)>, prometheus: string -> Option<PromReply>): seq<Point>
    decreases |qs|
  {
    if qs == [] then []
    else
      var q := qs[|qs| - 1];
      QueryPoints(qs[..|qs| - 1], prometheus) + ResultPoints(q.0, QueryResult(prometheus(q.1)))
  }

  /** One iteration of the innermost loop: create the record if needed, then set the metric. */
  function Absorb(d: ODict<MergeKey, Record>, p: Point, pod: string, ns: string): (r: Result<ODict<MergeKey, Record>, MergeError>)
    requires Valid(d)
    ensures r.Ok? ==> Valid(r.value)
    ensures r.Err? <==> p.parsed.None?
  {
    match p.parsed
    case None => Err(BadValue(p.value))
    case Some(v) =>
      var key := KeyOf(p);
      var rec := if key in d.values then d.values[key] else Record(p.timestamp, p.container, pod, ns, map[]);
      Ok(Put(d, key, rec.(metrics := rec.metrics[p.metric := v])))
  }

  function Merge(d: ODict<MergeKey, Record>, pts: seq<Point>, pod: string, ns: string): (r: Result<ODict<MergeKey, Record>, MergeError>)
    requires Valid(d)
    ensures r.Ok? ==> Valid(r.value)
    decreases |pts|
  {
    if pts == [] then Ok(d)
    else
      match Merge(d, pts[..|pts| - 1], pod, ns)
      case Err(e) => Err(e)
      case Ok(d1) => Absorb(d1, pts[|pts| - 1], pod, ns)
  }

  lemma {:induction false} MergeConcat(d: ODict<MergeKey, Record>, a: seq<Point>, b: seq<Point>, pod: string, ns: string)
    requires Valid(d)
    ensures Merge(d, a + b, pod, ns) ==
      match Merge(d, a, pod, ns)
      case Err(e) => Err(e)
      case Ok(d1) => Merge(d1, b, pod, ns)
    decreases |b|
  {
    if b == [] {
      assert a + b == a;
    } else {
      assert (a + b)[..|a + b| - 1] == a + b[..|b| - 1];
      MergeConcat(d, a, b[..|b| - 1], pod, ns);
    }
  }

  /** Each record's identifying columns agree with its key and with the arguments. */
  ghost predicate Shaped(d: ODict<MergeKey, Record>, pod: string, ns: string)
  {
    forall k :: k in d.values ==>
      d.values[k].timestamp == k.0 && d.values[k].container == k.1 &&
      d.values[k].pod == pod && d.values[k].namespace == ns
  }

  lemma {:induction false} MergeShaped(d: ODict<MergeKey, Record>, pts: seq<Point>, pod: string, ns: string)
    requires Valid(d) && Shaped(d, pod, ns)
    ensures Merge(d, pts, pod, ns).Ok? ==> Shaped(Merge(d, pts, pod, ns).value, pod, ns)
    decreases |pts|
  {
    if pts != [] {
      MergeShaped(d, pts[..|pts| - 1], pod, ns);
    }
  }

  /** The collector fails exactly when some value does not parse as a float. */
  lemma {:induction false} MergeFails(d: ODict<MergeKey, Record>, pts: seq<Point>, pod: string, ns: string)
    requires Valid(d)
    ensures Merge(d, pts, pod, ns).Err? <==> exists i :: 0 <= i < |pts| && pts[i].parsed.None?
    decreases |pts|
  {
    if pts != [] {
      var init := pts[..|pts| - 1];
      MergeFails(d, init, pod, ns);
      if exists i :: 0 <= i < |init| && init[i].parsed.None? {
        var i :| 0 <= i < |init| && init[i].parsed.None?;
        assert pts[i] == init[i];
      }
      if exists i :: 0 <= i < |pts| && pts[i].parsed.None? {
        var i :| 0 <= i < |pts| && pts[i].parsed.None?;
        if i < |init| { assert init[i] == pts[i]; }
      }
    }
  }

  /** The records are keyed by exactly the (timestamp, container) pairs seen. */
  lemma {:induction false} MergeKeys(d: ODict<MergeKey, Record>, pts: seq<Point>, pod: string, ns: string, key: MergeKey)
    requires Valid(d)
    requires Merge(d, pts, pod, ns).Ok?
    ensures key in Merge(d, pts, pod, ns).value.values <==>
      key in d.values || exists i :: 0 <= i < |pts| && KeyOf(pts[i]) == key
    decreases |pts|
  {
    if pts != [] {
      var init := pts[..|pts| - 1];
      MergeKeys(d, init, pod, ns, key);
      if exists i :: 0 <= i < |init| && KeyOf(init[i]) == key {
        var i :| 0 <= i < |init| && KeyOf(init[i]) == key;
        assert pts[i] == init[i];
      }
      if exists i :: 0 <= i < |pts| && KeyOf(pts[i]) == key {
        var i :| 0 <= i < |pts| && KeyOf(pts[i]) == key;
        if i < |init| { assert init[i] == pts[i]; }
      }
    }
  }

  /** The metric value a record holds, if any. */
  function Get(d: ODict<MergeKey, Record>, key: MergeKey, m: string): (r: Option<Num>)
    ensures r.Some? <==> key in d.values && m in d.values[key].metrics
  {
    if key in d.values && m in d.values[key].metrics then Some(d.values[key].metrics[m]) else None
  }

  /** The parsed value of the last point of `pts` with this key and metric. */
  function LastValue(pts: seq<Point>, key: MergeKey, m: string): Option<Num>
    decreases |pts|
  {
    if pts == [] then None
    else
      var p := pts[|pts| - 1];
      if KeyOf(p) == key && p.metric == m then p.parsed
      else LastValue(pts[..|pts| - 1], key, m)
  }

  /** `all_data[key][metric_name] = float(value)`: a later point overwrites an earlier one. */
  lemma {:induction false} MergeLastWins(d: ODict<MergeKey, Record>, pts: seq<Point>, pod: string, ns: string, key: MergeKey, m: string)
    requires Valid(d)
    requires Merge(d, pts, pod, ns).Ok?
    ensures Get(Merge(d, pts, pod, ns).value, key, m) ==
      if LastValue(pts, key, m).Some? then LastValue(pts, key, m) else Get(d, key, m)
    decreases |pts|
  {
    if pts != [] {
      MergeLastWins(d, pts[..|pts| - 1], pod, ns, key, m);
      AbsorbGet(Merge(d, pts[..|pts| - 1], pod, ns).value, pts[|pts| - 1], pod, ns, key, m);
    }
  }

  /** Absorbing a point sets its own cell and leaves every other cell alone. */
  lemma AbsorbGet(d: ODict<MergeKey, Record>, p: Point, pod: string, ns: string, key: MergeKey, m: string)
    requires Valid(d) && Absorb(d, p, pod, ns).Ok?
    ensures Get(Absorb(d, p, pod, ns).value, key, m) ==
      if KeyOf(p) == key && p.metric == m then p.parsed else Get(d, key, m)
  {
  }

  /** A metric is present in a record iff some point of that query had the record's key. */
  lemma {:induction false} LastValueFound(pts: seq<Point>, key: MergeKey, m: string)
    requires forall i :: 0 <= i < |pts| ==> pts[i].parsed.Some?
    ensures LastValue(pts, key, m).Some? <==> exists i :: 0 <= i < |pts| && KeyOf(pts[i]) == key && pts[i].metric == m
    decreases |pts|
  {
    if pts != [] {
      var init := pts[..|pts| - 1];
      LastValueFound(init, key, m);
      if exists i :: 0 <= i < |init| && KeyOf(init[i]) == key && init[i].metric == m {
        var i :| 0 <= i < |init| && KeyOf(init[i]) == key && init[i].metric == m;
        assert pts[i] == init[i];
      }
      if exists i :: 0 <= i < |pts| && KeyOf(pts[i]) == key && pts[i].metric == m {
        var i :| 0 <= i < |pts| && KeyOf(pts[i]) == key && pts[i].metric == m;
        if i < |init| { assert init[i] == pts[i]; }
      }
    }
  }

  // ------------------------------------------------------------ the table

  /** `list(all_data.values())` */
  function Records(d: ODict<MergeKey, Record>): (rs: seq<Record>)
    requires Valid(d)
    ensures |rs| == |d.keys|
    ensures forall i :: 0 <= i < |rs| ==> rs[i] == d.values[d.keys[i]]
  {
    assert forall i :: 0 <= i < |d.keys| ==> d.keys[i] in d.values;
    seq(|d.keys|, i requires 0 <= i < |d.keys| => d.values[d.keys[i]])
  }

  predicate TimeLess(a: Record, b: Record)
  {
    a.timestamp < b.timestamp
  }

  lemma TimeLessOrder()
    ensures StrictOrder(TimeLess)
  {
  }

  /** The column `c` exists in the frame built from `rows`. */
  predicate HasColumn(rows: seq<Record>, c: string)
  {
    exists i :: 0 <= i < |rows| && c in rows[i].metrics
  }

  /** The cell of column `c` in a row; a row that lacks the column holds NaN. */
  function Cell(row: Record, c: string): Num
  {
    if c in row.metrics then row.metrics[c] else NaN
  }

  /** `if src in df.columns: df[dst] = df[src] / divisor` */
  function Rescale(rows: seq<Record>, src: string, dst: string, divisor: real): (r: seq<Record>)
    requires divisor > 0.0
    ensures |r| == |rows|
  {
    if HasColumn(rows, src) then
      seq(|rows|, i requires 0 <= i < |rows| =>
        rows[i].(metrics := rows[i].metrics[dst := Div(Cell(rows[i], src), Fin(divisor))]))
    else rows
  }

  /** What `Rescale` does to one row: the new column, and nothing else changes. */
  lemma RescaleRow(rows: seq<Record>, src: string, dst: string, divisor: real, i: int, c: string)
    requires divisor > 0.0 && 0 <= i < |rows|
    ensures var out := Rescale(rows, src, dst, divisor)[i];
      out.timestamp == rows[i].timestamp && out.container == rows[i].container &&
      out.pod == rows[i].pod && out.namespace == rows[i].namespace &&
      (c != dst ==> (c in out.metrics <==> c in rows[i].metrics) && Cell(out, c) == Cell(rows[i], c)) &&
      (HasColumn(rows, src) ==> dst in out.metrics && Cell(out, dst) == Div(Cell(rows[i], src), Fin(divisor))) &&
      (!HasColumn(rows, src) ==> out == rows[i])
  {
  }

  /** The new column exists iff the column it is computed from exists. */
  lemma RescaleColumns(rows: seq<Record>, src: string, dst: string, divisor: real, c: string)
    requires divisor > 0.0
    ensures c != dst ==> (HasColumn(Rescale(rows, src, dst, divisor), c) <==> HasColumn(rows, c))
    ensures HasColumn(Rescale(rows, src, dst, divisor), dst) <==> HasColumn(rows, src) || HasColumn(rows, dst)
  {
    var out := Rescale(rows, src, dst, divisor);
    if HasColumn(out, c) {
      var i :| 0 <= i < |out| && c in out[i].metrics;
      RescaleRow(rows, src, dst, divisor, i, c);
    }
    if c != dst && HasColumn(rows, c) {
      var i :| 0 <= i < |rows| && c in rows[i].metrics;
      RescaleRow(rows, src, dst, divisor, i, c);
    }
    if HasColumn(rows, src) {
      var i :| 0 <= i < |rows| && src in rows[i].metrics;
      RescaleRow(rows, src, dst, divisor, i, dst);
    }
    if HasColumn(rows, dst) {
      var i :| 0 <= i < |rows| && dst in rows[i].metrics;
      RescaleRow(rows, src, dst, divisor, i, dst);
    }
    if HasColumn(out, dst) {
      var i :| 0 <= i < |out| && dst in out[i].metrics;
      RescaleRow(rows, src, dst, divisor, i, dst);
    }
  }

  const MiB: real := 1048576.0
  const KiB: real := 1024.0

  /** The four unit columns, in the order the source adds them. */
  function UnitColumns(rows: seq<Record>): (r: seq<Record>)
    ensures |r| == |rows|
  {
    var a := Rescale(rows, "memory_usage_bytes", "memory_usage_mb", MiB);
    var b := Rescale(a, "memory_working_set_bytes", "memory_working_set_mb", MiB);
    var c := Rescale(b, "network_receive_bytes", "network_receive_kb_s", KiB);
    Rescale(c, "network_transmit_bytes", "network_transmit_kb_s", KiB)
  }

  const UnitNames: set<string> :=
    {"memory_usage_mb", "memory_working_set_mb", "network_receive_kb_s", "network_transmit_kb_s"}

  /** `UnitColumns` changes one row only in the four unit columns. */
  lemma UnitColumnsRow(rows: seq<Record>, i: int, c: string)
    requires 0 <= i < |rows|
    requires c !in UnitNames
    ensures var out := UnitColumns(rows)[i];
      out.timestamp == rows[i].timestamp && out.container == rows[i].container &&
      out.pod == rows[i].pod && out.namespace == rows[i].namespace &&
      (c in out.metrics <==> c in rows[i].metrics) && Cell(out, c) == Cell(rows[i], c)
    ensures HasColumn(UnitColumns(rows), c) <==> HasColumn(rows, c)
  {
    var a := Rescale(rows, "memory_usage_bytes", "memory_usage_mb", MiB);
    var b := Rescale(a, "memory_working_set_bytes", "memory_working_set_mb", MiB);
    var d := Rescale(b, "network_receive_bytes", "network_receive_kb_s", KiB);
    RescaleRow(rows, "memory_usage_bytes", "memory_usage_mb", MiB, i, c);
    RescaleRow(a, "memory_working_set_bytes", "memory_working_set_mb", MiB, i, c);
    RescaleRow(b, "network_receive_bytes", "network_receive_kb_s", KiB, i, c);
    RescaleRow(d, "network_transmit_bytes", "network_transmit_kb_s", KiB, i, c);
    RescaleColumns(rows, "memory_usage_bytes", "memory_usage_mb", MiB, c);
    RescaleColumns(a, "memory_working_set_bytes", "memory_working_set_mb", MiB, c);
    RescaleColumns(b, "network_receive_bytes", "network_receive_kb_s", KiB, c);
    RescaleColumns(d, "network_transmit_bytes", "network_transmit_kb_s", KiB, c);
  }

  /** The last three conversions leave the first one's column alone, and so on. */
  lemma RescaleLater(rows: seq<Record>, src: string, dst: string, divisor: real, i: int, c: string)
    requires divisor > 0.0 && 0 <= i < |rows| && c != dst
    ensures Cell(Rescale(rows, src, dst, divisor)[i], c) == Cell(rows[i], c)
    ensures HasColumn(Rescale(rows, src, dst, divisor), c) <==> HasColumn(rows, c)
  {
    RescaleRow(rows, src, dst, divisor, i, c);
    RescaleColumns(rows, src, dst, divisor, c);
  }

  /**
   * With no unit column before, each unit column exists iff its byte column does,
   * and then holds the byte value divided by 1024 * 1024 (MB) or 1024 (KB/s).
   */
  lemma UnitColumnsValues(rows: seq<Record>, i: int)
    requires 0 <= i < |rows|
    requires !HasColumn(rows, "memory_usage_mb") && !HasColumn(rows, "memory_working_set_mb")
    requires !HasColumn(rows, "network_receive_kb_s") && !HasColumn(rows, "network_transmit_kb_s")
    ensures var out := UnitColumns(rows);
      (HasColumn(out, "memory_usage_mb") <==> HasColumn(out, "memory_usage_bytes")) &&
      (HasColumn(out, "memory_usage_mb") ==>
        Cell(out[i], "memory_usage_mb") == Div(Cell(out[i], "memory_usage_bytes"), Fin(MiB)))
    ensures var out := UnitColumns(rows);
      (HasColumn(out, "memory_working_set_mb") <==> HasColumn(out, "memory_working_set_bytes")) &&
      (HasColumn(out, "memory_working_set_mb") ==>
        Cell(out[i], "memory_working_set_mb") == Div(Cell(out[i], "memory_working_set_bytes"), Fin(MiB)))
    ensures var out := UnitColumns(rows);
      (HasColumn(out, "network_receive_kb_s") <==> HasColumn(out, "network_receive_bytes")) &&
      (HasColumn(out, "network_receive_kb_s") ==>
        Cell(out[i], "network_receive_kb_s") == Div(Cell(out[i], "network_receive_bytes"), Fin(KiB)))
    ensures var out := UnitColumns(rows);
      (HasColumn(out, "network_transmit_kb_s") <==> HasColumn(out, "network_transmit_bytes")) &&
      (HasColumn(out, "network_transmit_kb_s") ==>
        Cell(out[i], "network_transmit_kb_s") == Div(Cell(out[i], "network_transmit_bytes"), Fin(KiB)))
  {
    var a := Rescale(rows, "memory_usage_bytes", "memory_usage_mb", MiB);
    var b := Rescale(a, "memory_working_set_bytes", "memory_working_set_mb", MiB);
    var d := Rescale(b, "network_receive_bytes", "network_receive_kb_s", KiB);
    var out := Rescale(d, "network_transmit_bytes", "network_transmit_kb_s", KiB);
    // the byte columns are never written
    UnitColumnsRow(rows, i, "memory_usage_bytes");
    UnitColumnsRow(rows, i, "memory_working_set_bytes");
    UnitColumnsRow(rows, i, "network_receive_bytes");
    UnitColumnsRow(rows, i, "network_transmit_bytes");
    // memory_usage_mb
    RescaleRow(rows, "memory_usage_bytes", "memory_usage_mb", MiB, i, "memory_usage_mb");
    RescaleColumns(rows, "memory_usage_bytes", "memory_usage_mb", MiB, "memory_usage_mb");
    RescaleLater(a, "memory_working_set_bytes", "memory_working_set_mb", MiB, i, "memory_usage_mb");
    RescaleLater(b, "network_receive_bytes", "network_receive_kb_s", KiB, i, "memory_usage_mb");
    RescaleLater(d, "network_transmit_bytes", "network_transmit_kb_s", KiB, i, "memory_usage_mb");
    // memory_working_set_mb
    RescaleLater(rows, "memory_usage_bytes", "memory_usage_mb", MiB, i, "memory_working_set_mb");
    RescaleLater(rows, "memory_usage_bytes", "memory_usage_mb", MiB, i, "memory_working_set_bytes");
    RescaleRow(a, "memory_working_set_bytes", "memory_working_set_mb", MiB, i, "memory_working_set_mb");
    RescaleColumns(a, "memory_working_set_bytes", "memory_working_set_mb", MiB, "memory_working_set_mb");
    RescaleLater(b, "network_receive_bytes", "network_receive_kb_s", KiB, i, "memory_working_set_mb");
    RescaleLater(d, "network_transmit_bytes", "network_transmit_kb_s", KiB, i, "memory_working_set_mb");
    // network_receive_kb_s
    RescaleLater(rows, "memory_usage_bytes", "memory_usage_mb", MiB, i, "network_receive_kb_s");
    RescaleLater(a, "memory_working_set_bytes", "memory_working_set_mb", MiB, i, "network_receive_kb_s");
    RescaleLater(rows, "memory_usage_bytes", "memory_usage_mb", MiB, i, "network_receive_bytes");
    RescaleLater(a, "memory_working_set_bytes", "memory_working_set_mb", MiB, i, "network_receive_bytes");
    RescaleRow(b, "network_receive_bytes", "network_receive_kb_s", KiB, i, "network_receive_kb_s");
    RescaleColumns(b, "network_receive_bytes", "network_receive_kb_s", KiB, "network_receive_kb_s");
    RescaleLater(d, "network_transmit_bytes", "network_transmit_kb_s", KiB, i, "network_receive_kb_s");
    // network_transmit_kb_s
    RescaleLater(rows, "memory_usage_bytes", "memory_usage_mb", MiB, i, "network_transmit_kb_s");
    RescaleLater(a, "memory_working_set_bytes", "memory_working_set_mb", MiB, i, "network_transmit_kb_s");
    RescaleLater(b, "network_receive_bytes", "network_receive_kb_s", KiB, i, "network_transmit_kb_s");
    RescaleLater(rows, "memory_usage_bytes", "memory_usage_mb", MiB, i, "network_transmit_bytes");
    RescaleLater(a, "memory_working_set_bytes", "memory_working_set_mb", MiB, i, "network_transmit_bytes");
    RescaleLater(b, "network_receive_bytes", "network_receive_kb_s", KiB, i, "network_transmit_bytes");
    RescaleRow(d, "network_transmit_bytes", "network_transmit_kb_s", KiB, i, "network_transmit_kb_s");
    RescaleColumns(d, "network_transmit_bytes", "network_transmit_kb_s", KiB, "network_transmit_kb_s");
  }

  /** A byte count of exactly one MiB becomes 1.0 in the MB column. */
  lemma OneMebibyte()
    ensures Div(Fin(1048576.0), Fin(MiB)) == Fin(1.0)
  {
  }

  /** `df.sort_values('timestamp')` on the merged records. */
  function ByTime(d: ODict<MergeKey, Record>): (rows: seq<Record>)
    requires Valid(d)
    ensures Sorted(rows, TimeLess)
    ensures multiset(rows) == multiset(Records(d))
    ensures |rows| == |d.keys|
  {
    TimeLessOrder();
    InsertionSort(Records(d), TimeLess)
  }

  /** The DataFrame `collect_metrics_from_prometheus` returns for the merged records. */
  function Table(d: ODict<MergeKey, Record>): (rows: seq<Record>)
    requires Valid(d)
  {
    if d.keys == [] then [] else UnitColumns(ByTime(d))
  }

  function RowKey(row: Record): MergeKey
  {
    (row.timestamp, row.container)
  }

  /** Every metric a record holds is one of the queries' names. */
  ghost predicate QueryMetricsOnly(d: ODict<MergeKey, Record>)
  {
    forall k, m :: k in d.values && m in d.values[k].metrics ==> m in QueryNames
  }

  /** A row of the table is the record stored under its key, plus the unit columns. */
  ghost predicate RowOf(row: Record, d: ODict<MergeKey, Record>, pod: string, ns: string)
  {
    RowKey(row) in d.values && row.pod == pod && row.namespace == ns &&
    forall m :: m in QueryNames ==>
      (m in row.metrics <==> m in d.values[RowKey(row)].metrics) && Cell(row, m) == Cell(d.values[RowKey(row)], m)
  }

  lemma UnitsNotQueryNames(u: string)
    requires u in UnitNames
    ensures u !in QueryNames
  {
  }

  lemma QueryNamesNotUnits(m: string)
    requires m in QueryNames
    ensures m !in UnitNames
  {
  }

  lemma {:induction false} SortedRecords(d: ODict<MergeKey, Record>, pod: string, ns: string)
    requires Valid(d) && Shaped(d, pod, ns)
    ensures var rows := ByTime(d);
      (forall i :: 0 <= i < |rows| ==> RowKey(rows[i]) in d.values && rows[i] == d.values[RowKey(rows[i])]) &&
      (forall k :: k in d.values ==> exists i :: 0 <= i < |rows| && RowKey(rows[i]) == k)
  {
    var recs := Records(d);
    var rows := ByTime(d);
    forall i | 0 <= i < |rows|
      ensures RowKey(rows[i]) in d.values && rows[i] == d.values[RowKey(rows[i])]
    {
      assert rows[i] in multiset(recs);
      var j :| 0 <= j < |recs| && recs[j] == rows[i];
      assert d.keys[j] in d.values;
    }
    forall k | k in d.values
      ensures exists i :: 0 <= i < |rows| && RowKey(rows[i]) == k
    {
      var j :| 0 <= j < |d.keys| && d.keys[j] == k;
      assert recs[j] in multiset(rows);
      var i :| 0 <= i < |rows| && rows[i] == recs[j];
      assert RowKey(rows[i]) == k;
    }
  }

  /** One row of the table: its key, and the record stored under that key. */
  lemma TableRow(d: ODict<MergeKey, Record>, pod: string, ns: string, i: int)
    requires Valid(d) && Shaped(d, pod, ns) && d.keys != [] && 0 <= i < |d.keys|
    ensures |Table(d)| == |d.keys|
    ensures RowKey(Table(d)[i]) == RowKey(ByTime(d)[i])
    ensures Table(d)[i].timestamp == ByTime(d)[i].timestamp
    ensures RowOf(Table(d)[i], d, pod, ns)
  {
    var rows := ByTime(d);
    var out := Table(d);
    assert out == UnitColumns(rows);
    SortedRecords(d, pod, ns);
    UnitColumnsRow(rows, i, "memory_usage_bytes");
    forall m | m in QueryNames
      ensures (m in out[i].metrics <==> m in rows[i].metrics) && Cell(out[i], m) == Cell(rows[i], m)
    {
      QueryNamesNotUnits(m);
      UnitColumnsRow(rows, i, m);
    }
  }

  /**
   * The table has one row per merged record, in non-decreasing time, each row
   * being that record; every record appears.
   */
  lemma {:induction false} TableRows(d: ODict<MergeKey, Record>, pod: string, ns: string)
    requires Valid(d) && Shaped(d, pod, ns)
    ensures |Table(d)| == |d.keys|
    ensures Sorted(Table(d), TimeLess)
    ensures forall i :: 0 <= i < |Table(d)| ==> RowOf(Table(d)[i], d, pod, ns)
    ensures forall k :: k in d.values ==> exists i :: 0 <= i < |Table(d)| && RowKey(Table(d)[i]) == k
  {
    if d.keys != [] {
      var rows := ByTime(d);
      var out := Table(d);
      SortedRecords(d, pod, ns);
      forall i | 0 <= i < |out|
        ensures RowKey(out[i]) == RowKey(rows[i]) && out[i].timestamp == rows[i].timestamp
        ensures RowOf(out[i], d, pod, ns)
      {
        TableRow(d, pod, ns, i);
      }
      assert Sorted(rows, TimeLess);
      forall k | k in d.values
        ensures exists i :: 0 <= i < |out| && RowKey(out[i]) == k
      {
        var i :| 0 <= i < |rows| && RowKey(rows[i]) == k;
        assert RowKey(out[i]) == k;
      }
    }
  }

  /** Every unit column of the table exists iff its byte column does, and holds the scaled value. */
  lemma {:induction false} TableUnits(d: ODict<MergeKey, Record>, i: int)
    requires Valid(d) && QueryMetricsOnly(d) && 0 <= i < |Table(d)|
    ensures var out := Table(d);
      (HasColumn(out, "memory_usage_mb") <==> HasColumn(out, "memory_usage_bytes")) &&
      (HasColumn(out, "memory_usage_mb") ==>
        Cell(out[i], "memory_usage_mb") == Div(Cell(out[i], "memory_usage_bytes"), Fin(MiB)))
    ensures var out := Table(d);
      (HasColumn(out, "memory_working_set_mb") <==> HasColumn(out, "memory_working_set_bytes")) &&
      (HasColumn(out, "memory_working_set_mb") ==>
        Cell(out[i], "memory_working_set_mb") == Div(Cell(out[i], "memory_working_set_bytes"), Fin(MiB)))
    ensures var out := Table(d);
      (HasColumn(out, "network_receive_kb_s") <==> HasColumn(out, "network_receive_bytes")) &&
      (HasColumn(out, "network_receive_kb_s") ==>
        Cell(out[i], "network_receive_kb_s") == Div(Cell(out[i], "network_receive_bytes"), Fin(KiB)))
    ensures var out := Table(d);
      (HasColumn(out, "network_transmit_kb_s") <==> HasColumn(out, "network_transmit_bytes")) &&
      (HasColumn(out, "network_transmit_kb_s") ==>
        Cell(out[i], "network_transmit_kb_s") == Div(Cell(out[i], "network_transmit_bytes"), Fin(KiB)))
  {
    var recs := Records(d);
    var rows := ByTime(d);
    forall j | 0 <= j < |rows|
      ensures forall u :: u in UnitNames ==> u !in rows[j].metrics
    {
      assert rows[j] in multiset(recs);
      var l :| 0 <= l < |recs| && recs[l] == rows[j];
      assert d.keys[l] in d.values;
      forall u | u in UnitNames
        ensures u !in rows[j].metrics
      {
        UnitsNotQueryNames(u);
      }
    }
    UnitColumnsValues(rows, i);
  }

  /** A failure in a prefix of the points is the failure of the whole merge. */
  lemma MergeErrPrefix(d: ODict<MergeKey, Record>, a: seq<Point>, b: seq<Point>, pod: string, ns: string)
    requires Valid(d) && a <= b && Merge(d, a, pod, ns).Err?
    ensures Merge(d, b, pod, ns) == Merge(d, a, pod, ns)
  {
    assert b == a + b[|a|..];
    MergeConcat(d, a, b[|a|..], pod, ns);
  }

  lemma {:induction false} ResultPointsPrefix(name: string, rs: seq<PromSeries>, j: nat)
    requires j <= |rs|
    ensures ResultPoints(name, rs[..j]) <= ResultPoints(name, rs)
    decreases |rs| - j
  {
    if j < |rs| {
      ResultPointsPrefix(name, rs, j + 1);
      assert rs[..j + 1][..j] == rs[..j];
    } else {
      assert rs[..j] == rs;
    }
  }

  lemma {:induction false} QueryPointsPrefix(qs: seq<(string, string)>, prometheus: string -> Option<PromReply>, j: nat)
    requires j <= |qs|
    ensures QueryPoints(qs[..j], prometheus) <= QueryPoints(qs, prometheus)
    decreases |qs| - j
  {
    if j < |qs| {
      QueryPointsPrefix(qs, prometheus, j + 1);
      assert qs[..j + 1][..j] == qs[..j];
    } else {
      assert qs[..j] == qs;
    }
  }

  lemma MergeStep(d: ODict<MergeKey, Record>, pts: seq<Point>, k: int, pod: string, ns: string)
    requires Valid(d) && 0 <= k < |pts| && Merge(d, pts[..k], pod, ns).Ok?
    ensures Merge(d, pts[..k + 1], pod, ns) == Absorb(Merge(d, pts[..k], pod, ns).value, pts[k], pod, ns)
  {
    assert pts[..k + 1][..k] == pts[..k];
  }

  lemma AbsorbOk(d: ODict<MergeKey, Record>, p: Point, pod: string, ns: string, rec: Record)
    requires Valid(d) && p.parsed.Some?
    requires rec == if KeyOf(p) in d.values then d.values[KeyOf(p)] else Record(p.timestamp, p.container, pod, ns, map[])
    ensures Absorb(d, p, pod, ns) == Ok(Put(d, KeyOf(p), rec.(metrics := rec.metrics[p.metric := p.parsed.value])))
  {
  }

  lemma SeriesStart(d: ODict<MergeKey, Record>, name: string, s: PromSeries, pod: string, ns: string)
    requires Valid(d)
    ensures Merge(d, SeriesPoints(name, s)[..0], pod, ns) == Ok(d)
  {
    assert SeriesPoints(name, s)[..0] == [];
  }

  /** One pair of the innermost loop, as `Merge` sees it. */
  lemma SeriesStep(d: ODict<MergeKey, Record>, name: string, s: PromSeries, pod: string, ns: string,
                   k: int, before: ODict<MergeKey, Record>, rec: Record)
    requires Valid(d) && Valid(before) && 0 <= k < |s.values|
    requires Merge(d, SeriesPoints(name, s)[..k], pod, ns) == Ok(before)
    requires var key := (s.values[k].0, ContainerOf(s));
      rec == if key in before.values then before.values[key] else Record(key.0, key.1, pod, ns, map[])
    ensures var parsed := ParseFloat(s.values[k].1);
      parsed.None? ==> Merge(d, SeriesPoints(name, s), pod, ns) == Err(BadValue(s.values[k].1))
    ensures var parsed := ParseFloat(s.values[k].1);
      parsed.Some? ==>
        Merge(d, SeriesPoints(name, s)[..k + 1], pod, ns) ==
        Ok(Put(before, (s.values[k].0, ContainerOf(s)), rec.(metrics := rec.metrics[name := parsed.value])))
  {
    var pts := SeriesPoints(name, s);
    var p := pts[k];
    MergeStep(d, pts, k, pod, ns);
    if p.parsed.None? {
      MergeErrPrefix(d, pts[..k + 1], pts, pod, ns);
    } else {
      AbsorbOk(before, p, pod, ns, rec);
    }
  }

  /** The innermost loop: the `[timestamp, value]` pairs of one series. */
  method MergeSeries(d: ODict<MergeKey, Record>, name: string, s: PromSeries, pod: string, ns: string)
    returns (r: Result<ODict<MergeKey, Record>, MergeError>)
    requires Valid(d)
    ensures r == Merge(d, SeriesPoints(name, s), pod, ns)
  {
    var container := ContainerOf(s);
    var allData := d;
    var k := 0;
    SeriesStart(d, name, s, pod, ns);
    while k < |s.values|
      invariant 0 <= k <= |s.values| && Valid(allData)
      invariant Merge(d, SeriesPoints(name, s)[..k], pod, ns) == Ok(allData)
    {
      var timestamp := s.values[k].0;
      var value := s.values[k].1;
      var key := (timestamp, container);
      var rec := if key in allData.values then allData.values[key]
                 else Record(timestamp, container, pod, ns, map[]);
      var parsed := ParseFloat(value);
      SeriesStep(d, name, s, pod, ns, k, allData, rec);
      if parsed.None? {
        return Err(BadValue(value));
      }
      allData := Put(allData, key, rec.(metrics := rec.metrics[name := parsed.value]));
      k := k + 1;
    }
    assert SeriesPoints(name, s)[..k] == SeriesPoints(name, s);
    return Ok(allData);
  }

  /** `for result in results`: every series of one query. */
  method MergeResults(d: ODict<MergeKey, Record>, name: string, results: seq<PromSeries>, pod: string, ns: string)
    returns (r: Result<ODict<MergeKey, Record>, MergeError>)
    requires Valid(d)
    ensures r == Merge(d, ResultPoints(name, results), pod, ns)
  {
    var allData := d;
    var j := 0;
    while j < |results|
      invariant 0 <= j <= |results|
      invariant Valid(allData)
      invariant Merge(d, ResultPoints(name, results[..j]), pod, ns) == Ok(allData)
    {
      var merged := MergeSeries(allData, name, results[j], pod, ns);
      assert results[..j + 1][..j] == results[..j];
      MergeConcat(d, ResultPoints(name, results[..j]), SeriesPoints(name, results[j]), pod, ns);
      if merged.Err? {
        ResultPointsPrefix(name, results, j + 1);
        MergeErrPrefix(d, ResultPoints(name, results[..j + 1]), ResultPoints(name, results), pod, ns);
        return merged;
      }
      allData := merged.value;
      j := j + 1;
    }
    assert results[..j] == results;
    return Ok(allData);
  }

  /**
   * `collect_metrics_from_prometheus`. `prometheus` is the server's answer to
   * each query over the requested range; the result is the merged, sorted table,
   * or the `ValueError` of the first value that is not a float.
   */
  method CollectMetrics(pod: string, ns: string, prometheus: string -> Option<PromReply>)
    returns (r: Result<seq<Record>, MergeError>)
    ensures var m := Collected(pod, ns, prometheus);
      (m.Err? ==> r == Err(m.error)) && (m.Ok? ==> r == Ok(Table(m.value)))
  {
    var merged := MergeQueries(Queries(pod, ns), prometheus, pod, ns);
    if merged.Err? {
      return Err(merged.error);
    }
    var allData := merged.value;
    if allData.keys == [] {
      return Ok([]);
    }
    var rows := ByTime(allData);
    rows := Rescale(rows, "memory_usage_bytes", "memory_usage_mb", MiB);
    rows := Rescale(rows, "memory_working_set_bytes", "memory_working_set_mb", MiB);
    rows := Rescale(rows, "network_receive_bytes", "network_receive_kb_s", KiB);
    rows := Rescale(rows, "network_transmit_bytes", "network_transmit_kb_s", KiB);
    return Ok(rows);
  }

  /** The query loop of `collect_metrics`: each query's series merged in turn, stopping at
      the first value that is not a float. */
  method MergeQueries(queries: seq<(string, string)>, prometheus: string -> Option<PromReply>, pod: string, ns: string)
    returns (r: Result<ODict<MergeKey, Record>, MergeError>)
    ensures r == Merge(Empty(), QueryPoints(queries, prometheus), pod, ns)
    ensures r.Ok? ==> Valid(r.value)
  {
    var allData: ODict<MergeKey, Record> := Empty();
    var q := 0;
    while q < |queries|
      invariant 0 <= q <= |queries|
      invariant Valid(allData)
      invariant Merge(Empty(), QueryPoints(queries[..q], prometheus), pod, ns) == Ok(allData)
    {
      var name := queries[q].0;
      var results := QueryResult(prometheus(queries[q].1));
      var merged := MergeResults(allData, name, results, pod, ns);
      assert queries[..q + 1][..q] == queries[..q];
      MergeConcat(Empty(), QueryPoints(queries[..q], prometheus), ResultPoints(name, results), pod, ns);
      if merged.Err? {
        QueryPointsPrefix(queries, prometheus, q + 1);
        MergeErrPrefix(Empty(), QueryPoints(queries[..q + 1], prometheus), QueryPoints(queries, prometheus), pod, ns);
        return Err(merged.error);
      }
      allData := merged.value;
      q := q + 1;
    }
    assert queries[..q] == queries;
    return Ok(allData);
  }

  // ------------------------------------------------- what the collector returns

  lemma {:induction false} ResultPointsMetric(name: string, rs: seq<PromSeries>)
    ensures forall j :: 0 <= j < |ResultPoints(name, rs)| ==> ResultPoints(name, rs)[j].metric == name
    decreases |rs|
  {
    if rs != [] {
      ResultPointsMetric(name, rs[..|rs| - 1]);
    }
  }

  lemma {:induction false} QueryPointsMetric(qs: seq<(string, string)>, prometheus: string -> Option<PromReply>, names: seq<string>)
    requires |qs| <= |names| && forall k :: 0 <= k < |qs| ==> qs[k].0 == names[k]
    ensures forall j :: 0 <= j < |QueryPoints(qs, prometheus)| ==> QueryPoints(qs, prometheus)[j].metric in names
    decreases |qs|
  {
    if qs != [] {
      var q := qs[|qs| - 1];
      QueryPointsMetric(qs[..|qs| - 1], prometheus, names);
      ResultPointsMetric(q.0, QueryResult(prometheus(q.1)));
      assert q.0 == names[|qs| - 1];
    }
  }

  lemma {:induction false} MergeMetrics(d: ODict<MergeKey, Record>, pts: seq<Point>, pod: string, ns: string)
    requires Valid(d) && QueryMetricsOnly(d)
    requires forall j :: 0 <= j < |pts| ==> pts[j].metric in QueryNames
    ensures Merge(d, pts, pod, ns).Ok? ==> QueryMetricsOnly(Merge(d, pts, pod, ns).value)
    decreases |pts|
  {
    if pts != [] {
      MergeMetrics(d, pts[..|pts| - 1], pod, ns);
    }
  }

  /** The points of the eight queries for one pod. */
  function PodPoints(pod: string, ns: string, prometheus: string -> Option<PromReply>): seq<Point>
  {
    QueryPoints(Queries(pod, ns), prometheus)
  }

  function Collected(pod: string, ns: string, prometheus: string -> Option<PromReply>): Result<ODict<MergeKey, Record>, MergeError>
  {
    Merge(Empty(), PodPoints(pod, ns, prometheus), pod, ns)
  }

  /**
   * The collector fails iff some value is not a float; otherwise its table is in
   * time order, has one row per distinct (timestamp, container) pair, and every
   * pair of every point has a row.
   */
  lemma CollectedTable(pod: string, ns: string, prometheus: string -> Option<PromReply>)
    ensures var pts := PodPoints(pod, ns, prometheus);
      Collected(pod, ns, prometheus).Err? <==> exists j :: 0 <= j < |pts| && pts[j].parsed.None?
    ensures var pts := PodPoints(pod, ns, prometheus);
      var m := Collected(pod, ns, prometheus);
      m.Ok? ==>
        Sorted(Table(m.value), TimeLess) && |Table(m.value)| == |m.value.keys| &&
        forall j :: 0 <= j < |pts| ==> exists i :: 0 <= i < |Table(m.value)| && RowKey(Table(m.value)[i]) == KeyOf(pts[j])
  {
    var pts := PodPoints(pod, ns, prometheus);
    MergeFails(Empty(), pts, pod, ns);
    var m := Collected(pod, ns, prometheus);
    if m.Ok? {
      MergeShaped(Empty(), pts, pod, ns);
      TableRows(m.value, pod, ns);
      forall j | 0 <= j < |pts|
        ensures KeyOf(pts[j]) in m.value.values
      {
        MergeKeys(Empty(), pts, pod, ns, KeyOf(pts[j]));
      }
    }
  }

  /**
   * One row of the collector's table: the pod and namespace asked for, a
   * (timestamp, container) pair some point had, and for each query a value iff
   * that query gave a point for the pair, the last such point's.
   */
  lemma CollectedRow(pod: string, ns: string, prometheus: string -> Option<PromReply>, i: int, q: string)
    requires Collected(pod, ns, prometheus).Ok?
    requires 0 <= i < |Table(Collected(pod, ns, prometheus).value)|
    requires q in QueryNames
    ensures var pts := PodPoints(pod, ns, prometheus);
      var row := Table(Collected(pod, ns, prometheus).value)[i];
      row.pod == pod && row.namespace == ns &&
      (exists j :: 0 <= j < |pts| && KeyOf(pts[j]) == RowKey(row)) &&
      (q in row.metrics <==> exists j :: 0 <= j < |pts| && KeyOf(pts[j]) == RowKey(row) && pts[j].metric == q) &&
      (q in row.metrics ==> Some(Cell(row, q)) == LastValue(pts, RowKey(row), q))
  {
    MergedRow(PodPoints(pod, ns, prometheus), pod, ns, i, q);
  }

  /** A row of the table merged from any points, as `CollectedRow` states it. */
  lemma MergedRow(pts: seq<Point>, pod: string, ns: string, i: int, q: string)
    requires Merge(Empty(), pts, pod, ns).Ok?
    requires 0 <= i < |Table(Merge(Empty(), pts, pod, ns).value)|
    requires q in QueryNames
    ensures var row := Table(Merge(Empty(), pts, pod, ns).value)[i];
      row.pod == pod && row.namespace == ns &&
      (exists j :: 0 <= j < |pts| && KeyOf(pts[j]) == RowKey(row)) &&
      (q in row.metrics <==> exists j :: 0 <= j < |pts| && KeyOf(pts[j]) == RowKey(row) && pts[j].metric == q) &&
      (q in row.metrics ==> Some(Cell(row, q)) == LastValue(pts, RowKey(row), q))
  {
    var d := Merge(Empty(), pts, pod, ns).value;
    MergeShaped(Empty(), pts, pod, ns);
    TableRows(d, pod, ns);
    var row := Table(d)[i];
    assert RowOf(row, d, pod, ns);
    MergeKeys(Empty(), pts, pod, ns, RowKey(row));
    MergeLastWins(Empty(), pts, pod, ns, RowKey(row), q);
    MergeFails(Empty(), pts, pod, ns);
    LastValueFound(pts, RowKey(row), q);
  }

  /** The MB and KB/s columns of the collector's table: present iff their byte column is, and scaled from it. */
  lemma CollectedUnits(pod: string, ns: string, prometheus: string -> Option<PromReply>, i: int)
    requires Collected(pod, ns, prometheus).Ok?
    requires 0 <= i < |Table(Collected(pod, ns, prometheus).value)|
    ensures var out := Table(Collected(pod, ns, prometheus).value);
      (HasColumn(out, "memory_usage_mb") <==> HasColumn(out, "memory_usage_bytes")) &&
      (HasColumn(out, "memory_usage_mb") ==>
        Cell(out[i], "memory_usage_mb") == Div(Cell(out[i], "memory_usage_bytes"), Fin(MiB)))
    ensures var out := Table(Collected(pod, ns, prometheus).value);
      (HasColumn(out, "network_receive_kb_s") <==> HasColumn(out, "network_receive_bytes")) &&
      (HasColumn(out, "network_receive_kb_s") ==>
        Cell(out[i], "network_receive_kb_s") == Div(Cell(out[i], "network_receive_bytes"), Fin(KiB)))
  {
    var pts := PodPoints(pod, ns, prometheus);
    QueryPointsMetric(Queries(pod, ns), prometheus, QueryNames);
    MergeMetrics(Empty(), pts, pod, ns);
    TableUnits(Collected(pod, ns, prometheus).value, i);
  }

  /** `export_to_csv`: an empty table is refused; `written` is whether `to_csv` succeeded. */
  function ExportToCsv(rows: seq<Record>, written: bool): (ok: bool)
    ensures ok <==> rows != [] && written
  {
    rows != [] && written
  }
}
