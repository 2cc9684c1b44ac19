// Tables as sequences of records. The five pivot index columns form each row's
// key; every other column is a name mapped to a cell, NaN standing for a gap.
module Frames {
  import opened Numbers
  import opened Strings
  import opened Sorting

  /** The pivot index `(timestamp, pod, container, namespace, node)`. */
  datatype Key = Key(timestamp: int, pod: string, container: string, namespace: string, node: string)

  /** A numeric cell, or a label of a categorical column such as `period`. */
  datatype Cell = Number(n: Num) | Category(name: string)

  datatype Row = Row(key: Key, cells: map<string, Cell>)

  /** `columns` lists the non-key columns in frame order. */
  datatype Frame = Frame(columns: seq<string>, rows: seq<Row>)

  /** The number of index columns that `reset_index` turns into ordinary columns. */
  const KeyColumnCount := 5

  predicate Has(f: Frame, c: string) { c in f.columns }

  /** The numeric value of a cell; an absent or categorical cell reads as NaN. */
  function NumAt(r: Row, c: string): Num
  {
    if c in r.cells && r.cells[c].Number? then r.cells[c].n else NaN
  }

  /** A cell that pandas does not count as missing: a category, or a number other than NaN. */
  predicate Present(r: Row, c: string)
  {
    c in r.cells && (r.cells[c].Category? || !r.cells[c].n.NaN?)
  }

  /** Every row holds a cell for every column. */
  predicate WellFormed(f: Frame)
  {
    forall i :: 0 <= i < |f.rows| ==> f.rows[i].cells.Keys == set c | c in f.columns
  }

  function Column(f: Frame, c: string): (col: seq<Num>)
    ensures |col| == |f.rows|
  {
    seq(|f.rows|, i requires 0 <= i < |f.rows| => NumAt(f.rows[i], c))
  }

  function Keys(f: Frame): (ks: seq<Key>)
    ensures |ks| == |f.rows|
  {
    seq(|f.rows|, i requires 0 <= i < |f.rows| => f.rows[i].key)
  }

  /** `df[c] = values`: a new column goes last, an existing one is overwritten in place. */
  function SetColumn(f: Frame, c: string, values: seq<Cell>): (r: Frame)
    requires |values| == |f.rows|
    ensures r.columns == if c in f.columns then f.columns else f.columns + [c]
    ensures |r.rows| == |f.rows| && Keys(r) == Keys(f)
    ensures forall i :: 0 <= i < |r.rows| ==> r.rows[i].cells == f.rows[i].cells[c := values[i]]
  {
    var rows := seq(|f.rows|, i requires 0 <= i < |f.rows| => Row(f.rows[i].key, f.rows[i].cells[c := values[i]]));
    Frame(if c in f.columns then f.columns else f.columns + [c], rows)
  }

  function NumCells(values: seq<Num>): (cells: seq<Cell>)
    ensures |cells| == |values|
    ensures forall i :: 0 <= i < |values| ==> cells[i] == Number(values[i])
  {
    seq(|values|, i requires 0 <= i < |values| => Number(values[i]))
  }

  function SetNumbers(f: Frame, c: string, values: seq<Num>): (r: Frame)
    requires |values| == |f.rows|
    ensures Column(r, c) == values
    ensures Has(r, c) && |r.rows| == |f.rows| && Keys(r) == Keys(f)
    ensures forall d :: d != c ==> (Has(r, d) <==> Has(f, d)) && Column(r, d) == Column(f, d)
  {
    var r := SetColumn(f, c, NumCells(values));
    assert forall d, i :: d != c && 0 <= i < |r.rows| ==> NumAt(r.rows[i], d) == NumAt(f.rows[i], d);
    r
  }

  predicate HasAll(f: Frame, cs: seq<string>)
  {
    forall k :: 0 <= k < |cs| ==> Has(f, cs[k])
  }

  /** `if <every guard column exists>: df[c] = values`. */
  function Derive(f: Frame, guard: seq<string>, c: string, values: seq<Num>): (r: Frame)
    requires |values| == |f.rows|
    ensures HasAll(f, guard) ==> Column(r, c) == values
    ensures !HasAll(f, guard) ==> r == f
    ensures Has(r, c) <==> Has(f, c) || HasAll(f, guard)
    ensures Agree(f, r, {c})
  {
    if HasAll(f, guard) then SetNumbers(f, c, values) else f
  }

  /** A rowwise computation `df[c] = g(row)`. */
  function Map(f: Frame, g: Row -> Num): (values: seq<Num>)
    ensures |values| == |f.rows|
    ensures forall i :: 0 <= i < |f.rows| ==> values[i] == g(f.rows[i])
  {
    seq(|f.rows|, i requires 0 <= i < |f.rows| => g(f.rows[i]))
  }

  /** Column `c` of `r` is what the rule `if <guard columns exist>: df[c] = g(row)`
      writes into `df`; without the guard columns it is left as it was. */
  predicate DerivedAs(df: Frame, r: Frame, guard: seq<string>, c: string, g: Row -> Num)
  {
    (Has(r, c) <==> Has(df, c) || HasAll(df, guard))
    && (HasAll(df, guard) ==> Column(r, c) == Map(df, g))
  }

  predicate Untouched(cs: seq<string>, t: set<string>)
  {
    forall k :: 0 <= k < |cs| ==> cs[k] !in t
  }

  /** `g` looks at no column of a row other than `inputs`. */
  ghost predicate ReadsOnly(g: Row -> Num, inputs: seq<string>)
  {
    forall x: Row, y: Row :: (forall k :: 0 <= k < |inputs| ==> NumAt(x, inputs[k]) == NumAt(y, inputs[k])) ==> g(x) == g(y)
  }

  /** One guarded column assignment of a feature stage: `if <guard columns exist>: df[target] = g(row)`,
      where `g` reads the columns `inputs`. */
  datatype Rule = Rule(guard: seq<string>, inputs: seq<string>, target: string, g: Row -> Num)

  function Targets(rules: seq<Rule>): set<string>
  {
    set k | 0 <= k < |rules| :: rules[k].target
  }

  /** No rule of the stage reads or tests a column that a rule of the same stage writes,
      and no two rules write the same column. */
  ghost predicate Independent(rules: seq<Rule>)
  {
    (forall a, b :: 0 <= a < b < |rules| ==> rules[a].target != rules[b].target)
    && (forall a :: 0 <= a < |rules| ==> Untouched(rules[a].guard, Targets(rules)) && Untouched(rules[a].inputs, Targets(rules))
                                         && ReadsOnly(rules[a].g, rules[a].inputs))
  }

  /** A stage is independent once its targets, their distinctness, and what each rule tests
      and reads are known rule by rule. */
  lemma IndependentIntro(rules: seq<Rule>, t: set<string>)
    requires Targets(rules) == t
    requires forall a, b :: 0 <= a < b < |rules| ==> rules[a].target != rules[b].target
    requires forall a :: 0 <= a < |rules| ==> Untouched(rules[a].guard, t) && Untouched(rules[a].inputs, t)
    requires forall a :: 0 <= a < |rules| ==> ReadsOnly(rules[a].g, rules[a].inputs)
    ensures Independent(rules)
  {
  }

  lemma MapUnchanged(df: Frame, r: Frame, t: set<string>, g: Row -> Num, inputs: seq<string>)
    requires Agree(df, r, t) && Untouched(inputs, t) && ReadsOnly(g, inputs)
    ensures Map(r, g) == Map(df, g)
  {
    assert |Keys(r)| == |Keys(df)|;
    forall i | 0 <= i < |df.rows| ensures g(r.rows[i]) == g(df.rows[i]) {
      forall k | 0 <= k < |inputs| ensures NumAt(r.rows[i], inputs[k]) == NumAt(df.rows[i], inputs[k]) {
        assert Column(r, inputs[k])[i] == Column(df, inputs[k])[i];
      }
    }
  }

  lemma ReadsOne(g: Row -> Num, a: string)
    requires forall x: Row, y: Row :: NumAt(x, a) == NumAt(y, a) ==> g(x) == g(y)
    ensures ReadsOnly(g, [a])
  {
    forall x: Row, y: Row | (forall k :: 0 <= k < |[a]| ==> NumAt(x, [a][k]) == NumAt(y, [a][k]))
      ensures g(x) == g(y)
    {
      assert NumAt(x, [a][0]) == NumAt(y, [a][0]);
    }
  }

  lemma ReadsTwo(g: Row -> Num, a: string, b: string)
    requires forall x: Row, y: Row :: NumAt(x, a) == NumAt(y, a) && NumAt(x, b) == NumAt(y, b) ==> g(x) == g(y)
    ensures ReadsOnly(g, [a, b])
  {
    forall x: Row, y: Row | (forall k :: 0 <= k < |[a, b]| ==> NumAt(x, [a, b][k]) == NumAt(y, [a, b][k]))
      ensures g(x) == g(y)
    {
      assert NumAt(x, [a, b][0]) == NumAt(y, [a, b][0]);
      assert NumAt(x, [a, b][1]) == NumAt(y, [a, b][1]);
    }
  }

  lemma ReadsThree(g: Row -> Num, a: string, b: string, c: string)
    requires forall x: Row, y: Row :: NumAt(x, a) == NumAt(y, a) && NumAt(x, b) == NumAt(y, b) && NumAt(x, c) == NumAt(y, c)
               ==> g(x) == g(y)
    ensures ReadsOnly(g, [a, b, c])
  {
    forall x: Row, y: Row | (forall k :: 0 <= k < |[a, b, c]| ==> NumAt(x, [a, b, c][k]) == NumAt(y, [a, b, c][k]))
      ensures g(x) == g(y)
    {
      assert NumAt(x, [a, b, c][0]) == NumAt(y, [a, b, c][0]);
      assert NumAt(x, [a, b, c][1]) == NumAt(y, [a, b, c][1]);
      assert NumAt(x, [a, b, c][2]) == NumAt(y, [a, b, c][2]);
    }
  }

  /** A feature stage: its rules applied one after another to the frame. */
  method ApplyRules(df: Frame, rules: seq<Rule>) returns (r: Frame)
    requires Independent(rules)
    ensures Agree(df, r, Targets(rules))
    ensures forall k :: 0 <= k < |rules| ==> DerivedAs(df, r, rules[k].guard, rules[k].target, rules[k].g)
  {
    r := df;
    for k := 0 to |rules|
      invariant Agree(df, r, Targets(rules[..k]))
      invariant forall j :: 0 <= j < k ==> DerivedAs(df, r, rules[j].guard, rules[j].target, rules[j].g)
    {
      var rule := rules[k];
      var t := Targets(rules[..k]);
      assert t <= Targets(rules);
      assert rule.target !in t;
      MapUnchanged(df, r, t, rule.g, rule.inputs);
      assert HasAll(r, rule.guard) == HasAll(df, rule.guard);
      assert |Keys(r)| == |Keys(df)|;
      var r' := Derive(r, rule.guard, rule.target, Map(r, rule.g));
      assert forall j :: 0 <= j < k ==> rules[j].target != rule.target;
      assert Targets(rules[..k + 1]) == t + {rule.target};
      r := r';
    }
    assert rules[..|rules|] == rules;
  }

  /** A stage applied to `mid`, which differs from `df` only in `t`, where the stage
      neither tests nor reads `t`: its rules compute what they would on `df`. */
  lemma StepFromInput(df: Frame, mid: Frame, r: Frame, t: set<string>, rules: seq<Rule>)
    requires Agree(df, mid, t) && Independent(rules)
    requires forall k :: 0 <= k < |rules| ==> Untouched(rules[k].guard, t) && Untouched(rules[k].inputs, t) && rules[k].target !in t
    requires forall k :: 0 <= k < |rules| ==> DerivedAs(mid, r, rules[k].guard, rules[k].target, rules[k].g)
    ensures forall k :: 0 <= k < |rules| ==> DerivedAs(df, r, rules[k].guard, rules[k].target, rules[k].g)
  {
    forall k | 0 <= k < |rules| ensures DerivedAs(df, r, rules[k].guard, rules[k].target, rules[k].g) {
      MapUnchanged(df, mid, t, rules[k].g, rules[k].inputs);
      assert HasAll(mid, rules[k].guard) == HasAll(df, rules[k].guard);
    }
  }

  /** A column derived by an earlier step survives a later step that does not write it. */
  lemma DerivedKept(df: Frame, mid: Frame, r: Frame, guard: seq<string>, c: string, g: Row -> Num, t: set<string>)
    requires DerivedAs(df, mid, guard, c, g) && Agree(mid, r, t) && c !in t
    ensures DerivedAs(df, r, guard, c, g)
  {
  }

  /** A column derived after an earlier step that wrote neither it nor its inputs is derived
      from that step's input as well. */
  lemma DerivedThrough(df: Frame, mid: Frame, r: Frame, guard: seq<string>, c: string, g: Row -> Num, t: set<string>)
    requires Agree(df, mid, t) && Untouched(guard, t) && ReadsOnly(g, guard) && c !in t
    requires DerivedAs(mid, r, guard, c, g)
    ensures DerivedAs(df, r, guard, c, g)
  {
    MapUnchanged(df, mid, t, g, guard);
    assert HasAll(mid, guard) == HasAll(df, guard);
  }

  /** `f` and `g` have the same rows in the same order and the same columns,
      except possibly the columns in `touched`. */
  ghost predicate Agree(f: Frame, g: Frame, touched: set<string>)
  {
    Keys(f) == Keys(g)
    && forall d :: d !in touched ==> (Has(f, d) <==> Has(g, d)) && Column(f, d) == Column(g, d)
  }

  lemma AgreeTrans(f: Frame, g: Frame, h: Frame, a: set<string>, b: set<string>)
    requires Agree(f, g, a) && Agree(g, h, b)
    ensures Agree(f, h, a + b)
  {
  }

  lemma AgreeWiden(f: Frame, g: Frame, a: set<string>, b: set<string>)
    requires Agree(f, g, a) && a <= b
    ensures Agree(f, g, b)
  {
  }

  /** Python's comparison of `(pod, container, timestamp)` tuples. */
  predicate GroupTimeLess(a: Row, b: Row)
  {
    Less(a.key.pod, b.key.pod)
    || (a.key.pod == b.key.pod && Less(a.key.container, b.key.container))
    || (a.key.pod == b.key.pod && a.key.container == b.key.container && a.key.timestamp < b.key.timestamp)
  }

  /** The lexicographic order of pivot keys, as `groupby(sort=True)` sorts them. */
  predicate KeyLess(a: Key, b: Key)
  {
    a.timestamp < b.timestamp
    || (a.timestamp == b.timestamp && Less(a.pod, b.pod))
    || (a.timestamp == b.timestamp && a.pod == b.pod && Less(a.container, b.container))
    || (a.timestamp == b.timestamp && a.pod == b.pod && a.container == b.container && Less(a.namespace, b.namespace))
    || (a.timestamp == b.timestamp && a.pod == b.pod && a.container == b.container && a.namespace == b.namespace
        && Less(a.node, b.node))
  }

  lemma StringOrder()
    ensures StrictTotalOrder(Less)
  {
    forall a, b, c | Less(a, b) && Less(b, c) ensures Less(a, c) { LessTransitive(a, b, c); }
    forall a ensures !Less(a, a) { LessIrreflexive(a); }
    forall a, b ensures a == b || Less(a, b) || Less(b, a) { LessTotal(a, b); }
  }

  lemma KeyOrder()
    ensures StrictTotalOrder(KeyLess)
  {
    StringOrder();
    forall a, b, c | KeyLess(a, b) && KeyLess(b, c) ensures KeyLess(a, c) {
      assert forall x, y :: Less(x, y) ==> !Less(y, x) by {
        forall x, y | Less(x, y) ensures !Less(y, x) { LessAsymmetric(x, y); }
      }
    }
  }

  lemma GroupTimeOrder()
    ensures StrictOrder(GroupTimeLess)
  {
    StringOrder();
  }
}
