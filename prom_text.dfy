// The Prometheus text-format reader of the cAdvisor pod collector
// (apps/cadvisor-metrics-collector/src/pod_metrics_collector.py): one sample
// per line, its labels, and the per-pod filter that groups samples by name.
module PromText {
  import opened Wrappers
  import opened Strings
  import opened Numbers
  import opened NumberParsing
  import opened OrderedDicts

  // ---------------------------------------------------------- character runs

  predicate IsNameStart(c: char) { IsAlpha(c) || c == '_' || c == ':' }
  predicate IsNameChar(c: char) { IsNameStart(c) || IsDigit(c) }
  predicate IsLabelStart(c: char) { IsAlpha(c) || c == '_' }
  predicate IsLabelChar(c: char) { IsLabelStart(c) || IsDigit(c) }

  /** The character classes the line pattern is built from. */
  datatype CharClass = Space | NonSpace | NameChar | LabelChar

  predicate In(c: char, p: CharClass)
  {
    match p
    case Space => IsSpace(c)
    case NonSpace => !IsSpace(c)
    case NameChar => IsNameChar(c)
    case LabelChar => IsLabelChar(c)
  }

  /** Length of the longest prefix of `s` whose characters all satisfy `p`. */
  function Run(s: string, p: CharClass): (k: nat)
    ensures k <= |s|
    ensures forall i :: 0 <= i < k ==> In(s[i], p)
    ensures k == |s| || !In(s[k], p)
  {
    if s != [] && In(s[0], p) then
      var k := 1 + Run(s[1..], p);
      assert forall i :: 1 <= i < k ==> s[i] == s[1..][i - 1];
      k
    else 0
  }

  /** A run over `a` stops where `b` begins when `b` does not continue it. */
  lemma {:induction false} RunConcat(a: string, b: string, p: CharClass)
    requires forall i :: 0 <= i < |a| ==> In(a[i], p)
    requires b == [] || !In(b[0], p)
    ensures Run(a + b, p) == |a|
    decreases |a|
  {
    if a != [] {
      assert (a + b)[1..] == a[1..] + b;
      RunConcat(a[1..], b, p);
    } else {
      assert a + b == b;
    }
  }

  predicate AllOf(s: string, p: CharClass) { forall i :: 0 <= i < |s| ==> In(s[i], p) }

  /** `[a-zA-Z_:][a-zA-Z0-9_:]*` */
  predicate IsMetricName(s: string)
  {
    s != [] && IsNameStart(s[0]) && AllOf(s, NameChar)
  }

  /** `[a-zA-Z_][a-zA-Z0-9_]*` */
  predicate IsLabelName(s: string)
  {
    s != [] && IsLabelStart(s[0]) && AllOf(s, LabelChar)
  }

  // ------------------------------------------------------------------ labels

  /**
   * The `key="value"` match `re.findall` finds at the start of `s`, with how many
   * characters it spans. The key is the whole run of label characters (a
   * shorter key would be followed by another key character, not by `=`).
   */
  function PairAt(s: string): (r: Option<(string, string, nat)>)
    ensures r.Some? ==> 0 < r.value.2 <= |s| && IsLabelName(r.value.0) && NoChar(r.value.1, '"')
  {
    if s == [] || !IsLabelStart(s[0]) then None
    else
      var k := Run(s, LabelChar);
      if k + 2 <= |s| && s[k] == '=' && s[k + 1] == '"' && IndexOf(s[k + 2..], '"').Some? then
        var e := IndexOf(s[k + 2..], '"').value;
        assert s[k + 2..][..e] == s[k + 2..k + 2 + e];
        Some((s[..k], s[k + 2..k + 2 + e], k + 3 + e))
      else None
  }

  /** The text a match spans is its key, `="`, its value and `"`. */
  lemma PairAtMatch(s: string)
    ensures PairAt(s).Some? ==> s[..PairAt(s).value.2] == PairAt(s).value.0 + "=\"" + PairAt(s).value.1 + "\""
  {
    if PairAt(s).Some? {
      var k := Run(s, LabelChar);
      var e := IndexOf(s[k + 2..], '"').value;
      assert s[k + 2..][..e] == s[k + 2..k + 2 + e];
      assert s[..k + 3 + e] == s[..k] + "=\"" + s[k + 2..k + 2 + e] + "\"";
    }
  }

  /** `re.findall(r'([a-zA-Z_][a-zA-Z0-9_]*)="([^"]*)"', s)`: non-overlapping, left to right. */
  function Pairs(s: string): (ps: seq<(string, string)>)
    ensures forall j :: 0 <= j < |ps| ==> IsLabelName(ps[j].0) && NoChar(ps[j].1, '"')
    decreases |s|
  {
    if s == [] then []
    else match PairAt(s)
      case Some(m) => [(m.0, m.1)] + Pairs(s[m.2..])
      case None => Pairs(s[1..])
  }

  /** `IndexOf` finds the first occurrence just after a prefix that lacks it. */
  lemma IndexOfAfter(pre: string, c: char, rest: string)
    requires NoChar(pre, c)
    ensures IndexOf(pre + [c] + rest, c) == Some(|pre|)
    decreases |pre|
  {
    if pre == [] {
      assert (pre + [c] + rest)[0] == c;
    } else {
      assert (pre + [c] + rest)[1..] == pre[1..] + [c] + rest;
      IndexOfAfter(pre[1..], c, rest);
    }
  }

  lemma PairAtFront(key: string, value: string, rest: string)
    requires IsLabelName(key) && NoChar(value, '"')
    ensures PairAt(key + "=\"" + value + "\"" + rest) == Some((key, value, |key| + 3 + |value|))
  {
    var s := key + "=\"" + value + "\"" + rest;
    var k, e := |key|, |value|;
    assert Located(s, k, e) && s[..k] == key && s[k + 2..k + 2 + e] == value by {
      PairFrontKey(key, value, rest, s);
      PairFrontValue(key, value, rest, s);
    }
    PairAtShape(s, k, e);
  }

  /** Where the key run ends in `key="value"rest`. */
  lemma PairFrontKey(key: string, value: string, rest: string, s: string)
    requires IsLabelName(key) && s == key + "=\"" + value + "\"" + rest
    ensures s != [] && IsLabelStart(s[0]) && Run(s, LabelChar) == |key| && s[..|key|] == key
  {
    var tail := "=\"" + value + "\"" + rest;
    assert s == key + tail;
    KeyRun(key, tail, s);
  }

  /** Where `="` and the closing quote sit in `key="value"rest`. */
  lemma PairFrontValue(key: string, value: string, rest: string, s: string)
    requires NoChar(value, '"') && s == key + "=\"" + value + "\"" + rest
    ensures |key| + 2 <= |s| && s[|key|] == '=' && s[|key| + 1] == '"'
    ensures IndexOf(s[|key| + 2..], '"') == Some(|value|) && s[|key| + 2..|key| + 2 + |value|] == value
  {
    var q := value + "\"" + rest;
    var tail := "=\"" + q;
    Regroup(key, "=\"", value, "\"", rest);
    DropPrefix(s, key, tail);
    ValueQuote(value, rest, q);
    DropTwo(s, |key|, tail, q);
    PrefixOfDrop(s, |key| + 2, q, |value|);
  }

  lemma Regroup<T>(a: seq<T>, b: seq<T>, c: seq<T>, d: seq<T>, e: seq<T>)
    ensures a + b + c + d + e == a + (b + (c + d + e))
  {
  }

  lemma DropPrefix<T>(s: seq<T>, a: seq<T>, b: seq<T>)
    requires s == a + b
    ensures s[|a|..] == b
  {
  }

  lemma PrefixOfDrop(s: string, j: nat, q: string, n: nat)
    requires j <= |s| && s[j..] == q && n <= |q|
    ensures j + n <= |s| && s[j..j + n] == q[..n]
  {
    assert s[j..j + n] == s[j..][..n];
  }

  /** A label name followed by `=` is exactly the key run. */
  lemma KeyRun(key: string, tail: string, s: string)
    requires IsLabelName(key) && tail != [] && tail[0] == '=' && s == key + tail
    ensures s != [] && IsLabelStart(s[0]) && Run(s, LabelChar) == |key|
    ensures s[..|key|] == key && s[|key|..] == tail
  {
    RunConcat(key, tail, LabelChar);
  }

  /** A value without `"` followed by `"` ends at its length. */
  lemma ValueQuote(value: string, rest: string, q: string)
    requires NoChar(value, '"') && q == value + "\"" + rest
    ensures IndexOf(q, '"') == Some(|value|) && q[..|value|] == value
  {
    IndexOfAfter(value, '"', rest);
    assert q == value + ['"'] + rest;
  }

  lemma DropTwo(s: string, k: nat, tail: string, q: string)
    requires k <= |s| && s[k..] == tail && |tail| >= 2 && tail[2..] == q
    ensures s[k + 2..] == q && k + 2 <= |s| && s[k] == tail[0] && s[k + 1] == tail[1]
  {
    assert s[k + 2..] == s[k..][2..];
    assert s[k] == s[k..][0] && s[k + 1] == s[k..][1];
  }

  /** The key run of `s` ends at `k`, `="` follows, and the closing quote is `e` further on. */
  predicate Located(s: string, k: nat, e: nat)
  {
    s != [] && IsLabelStart(s[0]) && Run(s, LabelChar) == k &&
    k + 2 <= |s| && s[k] == '=' && s[k + 1] == '"' && IndexOf(s[k + 2..], '"') == Some(e)
  }

  /** `PairAt` on a line whose key run, `="` and closing quote are already located. */
  lemma PairAtShape(s: string, k: nat, e: nat)
    requires Located(s, k, e)
    ensures PairAt(s) == Some((s[..k], s[k + 2..k + 2 + e], k + 3 + e))
  {
  }

  /** A well-formed pair at the front is found, and the scan resumes right after it. */
  lemma PairsCons(key: string, value: string, rest: string)
    requires IsLabelName(key) && NoChar(value, '"')
    ensures Pairs(key + "=\"" + value + "\"" + rest) == [(key, value)] + Pairs(rest)
  {
    var s := key + "=\"" + value + "\"" + rest;
    PairAtFront(key, value, rest);
    assert s[|key| + 3 + |value|..] == rest;
  }

  /** The dict the `for key, value in matches: labels[key] = value` loop leaves. */
  function Assign(ps: seq<(string, string)>): map<string, string>
    decreases |ps|
  {
    if ps == [] then map[] else Assign(ps[..|ps| - 1])[ps[|ps| - 1].0 := ps[|ps| - 1].1]
  }

  function LabelMap(s: string): map<string, string>
  {
    Assign(Pairs(s))
  }

  /** Every key found is present, nothing else is, and a repeated key keeps its last value. */
  lemma {:induction false} AssignLastWins(ps: seq<(string, string)>)
    ensures forall k :: k in Assign(ps) <==> exists j :: 0 <= j < |ps| && ps[j].0 == k
    ensures forall j :: 0 <= j < |ps| && (forall l :: j < l < |ps| ==> ps[l].0 != ps[j].0) ==>
      Assign(ps)[ps[j].0] == ps[j].1
    decreases |ps|
  {
    if ps != [] {
      var init := ps[..|ps| - 1];
      AssignLastWins(init);
      forall k ensures k in Assign(ps) <==> exists j :: 0 <= j < |ps| && ps[j].0 == k {
        if exists j :: 0 <= j < |init| && init[j].0 == k {
          var j :| 0 <= j < |init| && init[j].0 == k;
          assert ps[j] == init[j];
        }
        if exists j :: 0 <= j < |ps| && ps[j].0 == k {
          var j :| 0 <= j < |ps| && ps[j].0 == k;
          if j < |init| { assert init[j] == ps[j]; }
        }
      }
      forall j | 0 <= j < |ps| && (forall l :: j < l < |ps| ==> ps[l].0 != ps[j].0)
        ensures Assign(ps)[ps[j].0] == ps[j].1
      {
        if j < |init| {
          assert init[j] == ps[j];
          assert forall l :: j < l < |init| ==> init[l] == ps[l];
        }
      }
    }
  }

  /** `_parse_labels` */
  method ParseLabels(labelsStr: string) returns (labels: map<string, string>)
    ensures labels == LabelMap(labelsStr)
  {
    var matches := Pairs(labelsStr);
    labels := map[];
    for j := 0 to |matches|
      invariant labels == Assign(matches[..j])
    {
      assert matches[..j + 1][..j] == matches[..j];
      labels := labels[matches[j].0 := matches[j].1];
    }
    assert matches[..|matches|] == matches;
  }

  // -------------------------------------------------------------- one line

  /** What follows the name and labels: `\s+([^\s]+)(?:\s+(\d+))?$`. */
  function ValueTail(rest: string): (r: Option<(string, Option<string>)>)
  {
    var a := Run(rest, Space);
    var v := Run(rest[a..], NonSpace);
    var stamp := StampOf(rest[a + v..]);
    if a == 0 || v == 0 || stamp.None? then None else Some((rest[a..a + v], stamp.value))
  }

  /** The optional `\s+(\d+)` part that ends a line: nothing at all, or a gap and digits. */
  function StampOf(after: string): Option<Option<string>>
  {
    if after == [] then Some(None)
    else
      var b := Run(after, Space);
      var ts := after[b..];
      if ts != [] && AllDigits(ts) then Some(Some(ts)) else None
  }

  /** A sample: `metric_name`, `value`, `timestamp` in seconds and `labels`. */
  datatype Sample = Sample(name: string, value: Num, timestamp: real, labels: map<string, string>)

  /** The name, the label text (if braces were given) and the tail of a line. */
  function SplitLine(line: string): Option<(string, Option<string>, string)>
  {
    var n := if line != [] && IsNameStart(line[0]) then Run(line, NameChar) else 0;
    if n == 0 then None
    else
      var rest := line[n..];
      if rest != [] && rest[0] == '{' then
        match IndexOf(rest[1..], '}')
        case None => None
        case Some(e) => Some((line[..n], Some(rest[1..1 + e]), rest[2 + e..]))
      else Some((line[..n], None, rest))
  }

  /** Milliseconds from the first instant of year 10000. */
  const YearTenThousandMs: nat := 253402300800000

  /**
   * An integer timestamp counts milliseconds; without one the sample is stamped `now`.
   * `None` is the error `datetime.fromtimestamp` raises for an instant after year 9999,
   * which drops the line.
   */
  function Stamp(ts: Option<string>, now: real): (r: Option<real>)
    requires ts.Some? ==> AllDigits(ts.value)
    ensures ts.None? ==> r == Some(now)
    ensures ts.Some? ==> (r.Some? <==> DigitsValue(ts.value) < YearTenThousandMs)
    ensures ts.Some? && r.Some? ==> r.value * 1000.0 == DigitsValue(ts.value) as real
  {
    if ts.None? then Some(now)
    else if DigitsValue(ts.value) < YearTenThousandMs then Some(DigitsValue(ts.value) as real / 1000.0)
    else None
  }

  /**
   * `_parse_metric_line` on a stripped line: the labelled pattern first, then the
   * plain one; `None` when neither matches or the value is not a float.
   */
  function ParseMetricLine(line: string, now: real): Option<Sample>
  {
    match SplitLine(line)
    case None => None
    case Some(parts) =>
      match ValueTail(parts.2)
      case None => None
      case Some(vt) =>
        match ParseFloat(vt.0)
        case None => None
        case Some(x) =>
          match Stamp(vt.1, now)
          case None => None
          case Some(t) =>
            var labels := if parts.1.Some? then LabelMap(parts.1.value) else map[];
            Some(Sample(parts.0, x, t, labels))
  }

  /** The pieces a matching line is made of. */
  datatype LineParts = LineParts(name: string, labels: Option<string>, gap: string, value: string,
                                 ts: Option<(string, string)>)

  predicate WellFormedParts(p: LineParts)
  {
    IsMetricName(p.name) &&
    (p.labels.Some? ==> NoChar(p.labels.value, '}')) &&
    p.gap != [] && AllOf(p.gap, Space) &&
    p.value != [] && AllOf(p.value, NonSpace) &&
    (p.ts.Some? ==> p.ts.value.0 != [] && AllOf(p.ts.value.0, Space) &&
                    p.ts.value.1 != [] && AllDigits(p.ts.value.1))
  }

  function Braces(labels: Option<string>): string
  {
    if labels.Some? then "{" + labels.value + "}" else ""
  }

  function TsText(ts: Option<(string, string)>): string
  {
    if ts.Some? then ts.value.0 + ts.value.1 else ""
  }

  function Render(p: LineParts): string
  {
    p.name + Braces(p.labels) + p.gap + p.value + TsText(p.ts)
  }

  function TsDigits(ts: Option<(string, string)>): Option<string>
  {
    if ts.Some? then Some(ts.value.1) else None
  }

  lemma ValueTailRendered(gap: string, value: string, ts: Option<(string, string)>)
    requires gap != [] && AllOf(gap, Space) && value != [] && AllOf(value, NonSpace)
    requires ts.Some? ==> ts.value.0 != [] && AllOf(ts.value.0, Space) && ts.value.1 != [] && AllDigits(ts.value.1)
    ensures ValueTail(gap + value + TsText(ts)) == Some((value, TsDigits(ts)))
  {
    var rest := gap + value + TsText(ts);
    var t := TsText(ts);
    assert ts.Some? ==> t[0] == ts.value.0[0];
    RunConcat(gap, value + t, Space);
    assert rest[|gap|..] == value + t;
    RunConcat(value, t, NonSpace);
    assert rest[|gap|..|gap| + |value|] == value;
    assert rest[|gap| + |value|..] == t;
    if ts.Some? {
      var digits := ts.value.1;
      assert !IsSpace(digits[0]);
      RunConcat(ts.value.0, digits, Space);
      assert t[|ts.value.0|..] == digits;
    }
  }

  lemma SplitLineLabelled(name: string, l: string, tail: string)
    requires IsMetricName(name) && NoChar(l, '}')
    ensures SplitLine(name + "{" + l + "}" + tail) == Some((name, Some(l), tail))
  {
    var line := name + "{" + l + "}" + tail;
    var n, e := |name|, |l|;
    assert Braced(line, n, e) && line[..n] == name && line[n..][1..1 + e] == l && line[n..][2 + e..] == tail by {
      var rest := "{" + l + "}" + tail;
      assert line == name + rest;
      RunFront(name, rest, line, NameChar);
      BracedRest(l, tail, rest);
    }
    SplitLineAt(line, n, e);
  }

  /** The name run of `line` ends at `n`, a `{` follows, and the first `}` is `e` further on. */
  predicate Braced(line: string, n: nat, e: nat)
  {
    line != [] && IsNameStart(line[0]) && Run(line, NameChar) == n && 0 < n <= |line| &&
    line[n..] != [] && line[n..][0] == '{' && IndexOf(line[n..][1..], '}') == Some(e)
  }

  /** `SplitLine` on a line whose name run and label block are already located. */
  lemma SplitLineAt(line: string, n: nat, e: nat)
    requires Braced(line, n, e)
    ensures SplitLine(line) == Some((line[..n], Some(line[n..][1..1 + e]), line[n..][2 + e..]))
  {
  }

  /** A run over a prefix whose every character is in the class, followed by one that is not. */
  lemma RunFront(front: string, tail: string, s: string, p: CharClass)
    requires front != [] && AllOf(front, p) && tail != [] && !In(tail[0], p) && s == front + tail
    ensures s[0] == front[0] && Run(s, p) == |front| && s[..|front|] == front && s[|front|..] == tail
  {
    RunConcat(front, tail, p);
  }

  /** Where the closing brace sits in `{l}tail`. */
  lemma BracedRest(l: string, tail: string, rest: string)
    requires NoChar(l, '}') && rest == "{" + l + "}" + tail
    ensures rest != [] && rest[0] == '{' && IndexOf(rest[1..], '}') == Some(|l|)
    ensures rest[1..1 + |l|] == l && rest[2 + |l|..] == tail
  {
    assert rest[1..] == l + ['}'] + tail;
    IndexOfAfter(l, '}', tail);
    assert rest[1..1 + |l|] == l;
    assert rest[2 + |l|..] == tail;
  }

  lemma SplitLinePlain(name: string, tail: string)
    requires IsMetricName(name) && tail != [] && IsSpace(tail[0])
    ensures SplitLine(name + tail) == Some((name, None, tail))
  {
    var line := name + tail;
    RunConcat(name, tail, NameChar);
    assert line[..|name|] == name && line[|name|..] == tail;
  }

  lemma SplitLineRendered(p: LineParts)
    requires WellFormedParts(p)
    ensures SplitLine(Render(p)) == Some((p.name, p.labels, p.gap + p.value + TsText(p.ts)))
  {
    var tail := p.gap + p.value + TsText(p.ts);
    assert Render(p) == p.name + Braces(p.labels) + tail;
    if p.labels.Some? {
      var l := p.labels.value;
      assert Braces(p.labels) == "{" + l + "}";
      assert Render(p) == p.name + "{" + l + "}" + tail;
      SplitLineLabelled(p.name, l, tail);
    } else {
      assert Render(p) == p.name + tail;
      SplitLinePlain(p.name, tail);
    }
  }

  /** Every well-formed line parses, to its name, value, timestamp and labels. */
  lemma ParseRendered(p: LineParts, now: real)
    requires WellFormedParts(p)
    ensures ParseMetricLine(Render(p), now) ==
      match ParseFloat(p.value)
      case None => None
      case Some(x) =>
        match Stamp(TsDigits(p.ts), now)
        case None => None
        case Some(t) => Some(Sample(p.name, x, t, if p.labels.Some? then LabelMap(p.labels.value) else map[]))
  {
    SplitLineRendered(p);
    ValueTailRendered(p.gap, p.value, p.ts);
  }

  lemma SplitLineShape(line: string)
    requires SplitLine(line).Some?
    ensures var parts := SplitLine(line).value;
      IsMetricName(parts.0) && (parts.1.Some? ==> NoChar(parts.1.value, '}')) &&
      line == parts.0 + Braces(parts.1) + parts.2
  {
    var n := Run(line, NameChar);
    var name := line[..n];
    var rest := line[n..];
    var parts := SplitLine(line).value;
    assert IsMetricName(name) by {
      RunPrefix(line, NameChar);
    }
    if rest != [] && rest[0] == '{' {
      var e := IndexOf(rest[1..], '}').value;
      var l := rest[1..1 + e];
      var t := rest[2 + e..];
      assert parts == (name, Some(l), t);
      Bracketed(rest, e, l, t);
      SplitAround(line, n, "{" + l + "}", t);
    } else {
      assert parts == (name, None, rest);
      assert line == name + "" + rest;
    }
  }

  /** A label block and what follows it, cut where `SplitLine` cuts them. */
  lemma Bracketed(rest: string, e: nat, l: string, t: string)
    requires rest != [] && rest[0] == '{' && IndexOf(rest[1..], '}') == Some(e)
    requires l == rest[1..1 + e] && t == rest[2 + e..]
    ensures rest == "{" + l + "}" + t && NoChar(l, '}')
  {
    assert rest[1..][..e] == l;
  }

  lemma SplitAround(line: string, n: nat, b: string, t: string)
    requires n <= |line| && line[n..] == b + t
    ensures line == line[..n] + b + t
  {
    assert line == line[..n] + line[n..];
  }

  /** The gap and the optional timestamp part of a tail, cut where `ValueTail` cuts it. */
  function TailCut(tail: string): (string, Option<(string, string)>)
  {
    var a := Run(tail, Space);
    var v := Run(tail[a..], NonSpace);
    var after := tail[a + v..];
    var b := Run(after, Space);
    (tail[..a], if after == [] then None else Some((after[..b], after[b..])))
  }

  lemma RunPrefix(s: string, p: CharClass)
    ensures AllOf(s[..Run(s, p)], p)
  {
    var k := Run(s, p);
    assert forall i :: 0 <= i < k ==> s[..k][i] == s[i];
  }

  lemma TailGap(tail: string)
    requires ValueTail(tail).Some?
    ensures TailCut(tail).0 != [] && AllOf(TailCut(tail).0, Space)
  {
    RunPrefix(tail, Space);
  }

  lemma TailValue(tail: string)
    requires ValueTail(tail).Some?
    ensures ValueTail(tail).value.0 != [] && AllOf(ValueTail(tail).value.0, NonSpace)
  {
    var a := Run(tail, Space);
    var v := Run(tail[a..], NonSpace);
    RunPrefix(tail[a..], NonSpace);
    assert ValueTail(tail).value.0 == tail[a..][..v];
  }

  lemma TailStamp(tail: string)
    requires ValueTail(tail).Some?
    ensures var ts := TailCut(tail).1;
      ts.Some? ==> ts.value.0 != [] && AllOf(ts.value.0, Space) && ts.value.1 != [] && AllDigits(ts.value.1)
  {
    var a := Run(tail, Space);
    var v := Run(tail[a..], NonSpace);
    var after := tail[a + v..];
    if after != [] {
      RunPrefix(after, Space);
      assert after[0] == tail[a..][v];
    }
  }

  /** The value `ValueTail` reports is the non-space run after the gap. */
  lemma ValueAt(tail: string) returns (a: nat, v: nat)
    requires ValueTail(tail).Some?
    ensures a == Run(tail, Space) && v == Run(tail[a..], NonSpace)
    ensures a + v <= |tail|
    ensures ValueTail(tail).value.0 == tail[a..a + v]
  {
    a := Run(tail, Space);
    v := Run(tail[a..], NonSpace);
  }

  lemma TailConcat(tail: string)
    requires ValueTail(tail).Some?
    ensures tail == TailCut(tail).0 + ValueTail(tail).value.0 + TsText(TailCut(tail).1)
  {
    var a, v := ValueAt(tail);
    var after := tail[a + v..];
    assert TailCut(tail).0 == tail[..a];
    assert TsText(TailCut(tail).1) == after by {
      if after != [] {
        var b := Run(after, Space);
        CutTwo(after, b);
      }
    }
    CutThree(tail, a, a + v);
  }

  lemma CutTwo(s: string, i: nat)
    requires i <= |s|
    ensures s == s[..i] + s[i..]
  {
  }

  lemma CutThree(s: string, i: nat, j: nat)
    requires i <= j <= |s|
    ensures s == s[..i] + s[i..j] + s[j..]
  {
  }

  lemma ValueTailShape(tail: string)
    requires ValueTail(tail).Some?
    ensures var (gap, ts) := TailCut(tail);
      var value := ValueTail(tail).value.0;
      gap != [] && AllOf(gap, Space) && value != [] && AllOf(value, NonSpace) &&
      (ts.Some? ==> ts.value.0 != [] && AllOf(ts.value.0, Space) && ts.value.1 != [] && AllDigits(ts.value.1)) &&
      tail == gap + value + TsText(ts)
  {
    TailGap(tail);
    TailValue(tail);
    TailStamp(tail);
    TailConcat(tail);
  }

  /** The pieces of a line, cut where the parser cuts it. */
  function PartsOf(line: string): LineParts
    requires SplitLine(line).Some? && ValueTail(SplitLine(line).value.2).Some?
  {
    var parts := SplitLine(line).value;
    var cut := TailCut(parts.2);
    LineParts(parts.0, parts.1, cut.0, ValueTail(parts.2).value.0, cut.1)
  }

  /** And every line that parses is a well-formed line: the two patterns accept nothing else. */
  lemma ParsedIsRendered(line: string, now: real)
    requires ParseMetricLine(line, now).Some?
    ensures SplitLine(line).Some? && ValueTail(SplitLine(line).value.2).Some?
    ensures WellFormedParts(PartsOf(line)) && Render(PartsOf(line)) == line
  {
    MatchedIsRendered(line);
  }

  lemma MatchedIsRendered(line: string)
    requires SplitLine(line).Some? && ValueTail(SplitLine(line).value.2).Some?
    ensures WellFormedParts(PartsOf(line)) && Render(PartsOf(line)) == line
  {
    var parts := SplitLine(line).value;
    var cut := TailCut(parts.2);
    var value := ValueTail(parts.2).value.0;
    SplitLineShape(line);
    ValueTailShape(parts.2);
    var p := LineParts(parts.0, parts.1, cut.0, value, cut.1);
    assert PartsOf(line) == p;
    Reassemble(line, p, parts.2);
  }

  lemma Reassemble(line: string, p: LineParts, tail: string)
    requires line == p.name + Braces(p.labels) + tail && tail == p.gap + p.value + TsText(p.ts)
    ensures Render(p) == line
  {
    assert p.name + Braces(p.labels) + (p.gap + p.value + TsText(p.ts)) ==
           p.name + Braces(p.labels) + p.gap + p.value + TsText(p.ts);
  }

  // -------------------------------------------------------------- the text

  /** `pod="P"` or `pod_name="P"` appears somewhere in the line. */
  predicate MentionsPod(line: string, pod: string)
  {
    Contains(line, "pod=\"" + pod + "\"") || Contains(line, "pod_name=\"" + pod + "\"")
  }

  /** The sample a raw line contributes, if any. */
  function LineSample(raw: string, pod: string, now: real): Option<Sample>
  {
    var line := Strip(raw);
    if line == [] || line[0] == '#' then None
    else if !MentionsPod(line, pod) then None
    else ParseMetricLine(line, now)
  }

  function Kept(lines: seq<string>, pod: string, now: real): (r: seq<Sample>)
    ensures |r| <= |lines|
    decreases |lines|
  {
    if lines == [] then []
    else
      var init := Kept(lines[..|lines| - 1], pod, now);
      match LineSample(lines[|lines| - 1], pod, now)
      case None => init
      case Some(s) => init + [s]
  }

  /** Samples grouped by name, names in order of first appearance, samples in input order. */
  function GroupByName(ss: seq<Sample>): (d: ODict<string, seq<Sample>>)
    ensures Valid(d)
    decreases |ss|
  {
    if ss == [] then Empty()
    else
      var d := GroupByName(ss[..|ss| - 1]);
      var s := ss[|ss| - 1];
      Put(d, s.name, (if s.name in d.values then d.values[s.name] else []) + [s])
  }

  function Named(ss: seq<Sample>, name: string): seq<Sample>
    decreases |ss|
  {
    if ss == [] then []
    else Named(ss[..|ss| - 1], name) + (if ss[|ss| - 1].name == name then [ss[|ss| - 1]] else [])
  }

  /** A name is a key iff some sample has it, and it holds exactly that name's samples, in order. */
  lemma {:induction false} GroupByNameContents(ss: seq<Sample>, name: string)
    ensures name in GroupByName(ss).values <==> exists j :: 0 <= j < |ss| && ss[j].name == name
    ensures name in GroupByName(ss).values ==> GroupByName(ss).values[name] == Named(ss, name)
    ensures name !in GroupByName(ss).values ==> Named(ss, name) == []
    decreases |ss|
  {
    if ss != [] {
      var init := ss[..|ss| - 1];
      GroupByNameContents(init, name);
      if exists j :: 0 <= j < |init| && init[j].name == name {
        var j :| 0 <= j < |init| && init[j].name == name;
        assert ss[j] == init[j];
      }
      if exists j :: 0 <= j < |ss| && ss[j].name == name {
        var j :| 0 <= j < |ss| && ss[j].name == name;
        if j < |init| { assert init[j] == ss[j]; }
      }
    }
  }

  /** A line yields a sample only if it is neither blank nor a comment, names the pod and parses. */
  lemma LineSampleConditions(raw: string, pod: string, now: real)
    requires LineSample(raw, pod, now).Some?
    ensures Strip(raw) != [] && Strip(raw)[0] != '#' && MentionsPod(Strip(raw), pod)
    ensures ParseMetricLine(Strip(raw), now) == LineSample(raw, pod, now)
  {
  }

  /** Every kept sample comes from one of the lines, in the lines' order. */
  lemma {:induction false} KeptFromLines(lines: seq<string>, pod: string, now: real)
    ensures forall j :: 0 <= j < |Kept(lines, pod, now)| ==>
      exists i :: 0 <= i < |lines| && LineSample(lines[i], pod, now) == Some(Kept(lines, pod, now)[j])
    decreases |lines|
  {
    if lines == [] {
      assert Kept(lines, pod, now) == [];
    } else {
      var init := lines[..|lines| - 1];
      KeptFromLines(init, pod, now);
      KeptLast(lines, init, pod, now);
      var k := Kept(lines, pod, now);
      var ki := Kept(init, pod, now);
      forall j | 0 <= j < |k|
        ensures exists i :: 0 <= i < |lines| && LineSample(lines[i], pod, now) == Some(k[j])
      {
        if j < |ki| {
          var i :| 0 <= i < |init| && LineSample(init[i], pod, now) == Some(ki[j]);
          assert lines[i] == init[i];
        } else {
          assert LineSample(lines[|lines| - 1], pod, now) == Some(k[j]);
        }
      }
    }
  }

  /** `Kept` on one more line keeps what the earlier lines kept and adds at most that line's
      sample. */
  lemma KeptLast(lines: seq<string>, init: seq<string>, pod: string, now: real)
    requires lines != [] && init == lines[..|lines| - 1]
    ensures |Kept(init, pod, now)| <= |Kept(lines, pod, now)|
    ensures forall j :: 0 <= j < |Kept(init, pod, now)| ==> Kept(lines, pod, now)[j] == Kept(init, pod, now)[j]
    ensures forall j :: |Kept(init, pod, now)| <= j < |Kept(lines, pod, now)| ==>
      LineSample(lines[|lines| - 1], pod, now) == Some(Kept(lines, pod, now)[j])
  {
  }

  /** Blank lines, comments and lines of other pods contribute nothing. */
  lemma DroppedLine(lines: seq<string>, raw: string, pod: string, now: real)
    requires Strip(raw) == [] || Strip(raw)[0] == '#' || !MentionsPod(Strip(raw), pod)
    ensures Kept(lines + [raw], pod, now) == Kept(lines, pod, now)
  {
    assert (lines + [raw])[..|lines|] == lines;
  }

  lemma KeptStep(lines: seq<string>, i: int, pod: string, now: real)
    requires 0 <= i < |lines|
    ensures Kept(lines[..i + 1], pod, now) ==
      match LineSample(lines[i], pod, now)
      case None => Kept(lines[..i], pod, now)
      case Some(s) => Kept(lines[..i], pod, now) + [s]
  {
    assert lines[..i + 1][..i] == lines[..i];
  }

  lemma GroupStep(ss: seq<Sample>, s: Sample)
    ensures GroupByName(ss + [s]) ==
      Put(GroupByName(ss), s.name, (if s.name in GroupByName(ss).values then GroupByName(ss).values[s.name] else []) + [s])
  {
    assert (ss + [s])[..|ss|] == ss;
  }

  /** `_parse_prometheus_metrics` */
  method ParsePrometheusMetrics(metricsText: string, pod: string, now: real)
    returns (metricsData: ODict<string, seq<Sample>>)
    ensures metricsData == GroupByName(Kept(Split(metricsText, '\n'), pod, now))
  {
    var lines := Split(metricsText, '\n');
    metricsData := Empty();
    ghost var kept: seq<Sample> := [];
    for i := 0 to |lines|
      invariant kept == Kept(lines[..i], pod, now)
      invariant metricsData == GroupByName(kept)
    {
      KeptStep(lines, i, pod, now);
      var line := Strip(lines[i]);
      if line == [] || line[0] == '#' {
        assert LineSample(lines[i], pod, now) == None;
        continue;
      }
      if !Contains(line, "pod=\"" + pod + "\"") && !Contains(line, "pod_name=\"" + pod + "\"") {
        assert LineSample(lines[i], pod, now) == None;
        continue;
      }
      var metricInfo := ParseMetricLine(line, now);
      assert LineSample(lines[i], pod, now) == metricInfo;
      if metricInfo.Some? {
        var name := metricInfo.value.name;
        var previous := if name in metricsData.values then metricsData.values[name] else [];
        GroupStep(kept, metricInfo.value);
        metricsData := Put(metricsData, name, previous + [metricInfo.value]);
        kept := kept + [metricInfo.value];
      }
    }
    assert lines[..|lines|] == lines;
  }
}
