// Bounds on sums and averages of values, used for the rolling means.
module Averages {
  import opened Numbers

  predicate InRange(vs: seq<Num>, lo: real, hi: real)
  {
    forall k :: 0 <= k < |vs| ==> vs[k].Fin? && lo <= vs[k].r <= hi
  }

  /** `n` finite values within [lo, hi] sum to between `n * lo` and `n * hi`. */
  lemma {:induction false} TotalWithin(vs: seq<Num>, lo: real, hi: real, n: real)
    requires InRange(vs, lo, hi) && n == |vs| as real
    ensures Total(vs).Fin?
    ensures lo * n <= Total(vs).r <= hi * n
  {
    if vs != [] {
      var init := vs[..|vs| - 1];
      assert InRange(init, lo, hi);
      var m := |init| as real;
      TotalWithin(init, lo, hi, m);
      var t, x := Total(init).r, vs[|vs| - 1].r;
      assert Total(vs) == Fin(t + x);
      BoundStep(lo, hi, m, n, t, x);
      assert Total(vs).r == t + x;
    }
  }

  lemma BoundStep(lo: real, hi: real, m: real, n: real, t: real, x: real)
    requires lo * m <= t <= hi * m && lo <= x <= hi && n == m + 1.0
    ensures lo * n <= t + x <= hi * n
  {
  }

  lemma DivNonneg(x: real, n: real)
    requires n > 0.0 && x >= 0.0
    ensures x / n >= 0.0
  {
  }

  lemma DivideBound(lo: real, hi: real, n: real, t: real)
    requires n > 0.0 && lo * n <= t <= hi * n
    ensures lo <= t / n <= hi
  {
    assert t / n - lo == (t - lo * n) / n;
    assert hi - t / n == (hi * n - t) / n;
    DivNonneg(t - lo * n, n);
    DivNonneg(hi * n - t, n);
  }

}
