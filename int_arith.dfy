// Facts about whole-number division the models rely on: Dafny's `/` and `%` agree with
// Python's `//` and `%` whenever the divisor is positive.
module IntArith {
  /** Division is determined by any quotient and remainder that fit. */
  lemma DivModUnique(x: int, p: int, q: int, r: int)
    requires p > 0 && 0 <= r < p && x == p * q + r
    ensures x % p == r && x / p == q
  {
    var q0, r0 := x / p, x % p;
    assert x == p * q0 + r0;
    if q0 < q {
      MulAtLeast(p, q - q0);
    } else if q0 > q {
      MulAtLeast(p, q0 - q);
    }
  }

  lemma MulAtLeast(p: int, k: int)
    requires p > 0 && k >= 1
    ensures p * k >= p
  {
  }

  /** Ceiling division for a positive divisor: the number of steps of `b` needed to reach
      `a`, none when `a` is not positive. */
  function CeilDiv(a: int, b: int): (r: nat)
    requires b > 0
    ensures a <= 0 ==> r == 0
    ensures a > 0 ==> (r - 1) * b < a <= r * b
  {
    if a <= 0 then 0
    else
      var q := (a + b - 1) / b;
      assert b * q <= a + b - 1 < b * q + b;
      assert (q - 1) * b == b * q - b;
      q
  }

  /** The smallest count of steps that reaches `a` is the ceiling. */
  lemma CeilDivLeast(a: int, b: int, k: int)
    requires b > 0 && a > 0 && k >= 1 && (k - 1) * b < a <= k * b
    ensures k == CeilDiv(a, b)
  {
    DivModUnique(a + b - 1, b, k, a + b - 1 - b * k);
  }
}
