// The prime number service (apps/primos_0.1/app.py): trial-division primality, the first
// `count` primes, and the count checks of its two endpoints. Clock readings and the CSV log
// are left to the caller; the responses carry the reported figures.
module Primes {
  import opened Wrappers
  import opened IntArith

  /** `n` is prime: at least 2 and without a divisor strictly between 1 and `n`. */
  ghost predicate Prime(n: int)
  {
    n >= 2 && forall d :: 2 <= d < n ==> n % d != 0
  }

  // ------------------------------------------------------------ arithmetic

  /** `a <= b` gives `a * a <= b * b` for non-negative numbers. */
  lemma SquareMonotone(a: int, b: int)
    requires 0 <= a <= b
    ensures a * a <= b * b
  {
    assert a * a <= a * b;
    assert a * b <= b * b;
  }

  /** `int(math.sqrt(n))`: the whole square root. */
  function Isqrt(n: nat): (r: nat)
    ensures r * r <= n < (r + 1) * (r + 1)
  {
    if n == 0 then 0
    else
      var s := Isqrt(n - 1);
      if (s + 1) * (s + 1) <= n then s + 1 else s
  }

  /** A number below the square root squares to at most `n`, one above it to more. */
  lemma IsqrtBound(n: nat, i: int)
    requires i >= 0
    ensures i <= Isqrt(n) <==> i * i <= n
  {
    var s := Isqrt(n);
    if i <= s {
      SquareMonotone(i, s);
    } else {
      SquareMonotone(s + 1, i);
    }
  }

  /** The smallest divisor of `n` that is at least `d`. */
  function SmallestDivisorFrom(n: int, d: int): (r: int)
    requires 2 <= d <= n
    ensures d <= r <= n && n % r == 0
    ensures forall e :: d <= e < r ==> n % e != 0
    decreases n - d
  {
    if n % d == 0 then d else SmallestDivisorFrom(n, d + 1)
  }

  /** A divisor of a divisor divides. */
  lemma DividesTrans(n: int, d: int, e: int)
    requires n > 0 && d > 0 && e > 0 && n % d == 0 && d % e == 0
    ensures n % e == 0
  {
    var k, j := n / d, d / e;
    assert n == d * k;
    assert d == e * j;
    assert n == e * (j * k);
    DivModUnique(n, e, j * k, 0);
  }

  /** The smallest divisor above 1 is prime. */
  lemma SmallestDivisorPrime(n: int)
    requires n >= 2
    ensures Prime(SmallestDivisorFrom(n, 2))
  {
    var p := SmallestDivisorFrom(n, 2);
    forall e | 2 <= e < p
      ensures p % e != 0
    {
      if p % e == 0 {
        DividesTrans(n, p, e);
      }
    }
  }

  /** The cofactor of a divisor divides too. */
  lemma CofactorDivides(n: int, p: int)
    requires n >= 2 && p >= 2 && n % p == 0
    ensures n / p >= 1 && p * (n / p) == n && n % (n / p) == 0
  {
    var k := n / p;
    assert n == p * k;
    DivModUnique(n, k, p, 0);
  }

  /** A number with a divisor strictly between 1 and itself has a prime one whose square is
      at most the number. */
  lemma SmallDivisor(n: int)
    requires n >= 2 && !Prime(n)
    ensures var p := SmallestDivisorFrom(n, 2); Prime(p) && p < n && p * p <= n
  {
    var p := SmallestDivisorFrom(n, 2);
    SmallestDivisorPrime(n);
    var d :| 2 <= d < n && n % d == 0;
    CofactorDivides(n, p);
    var k := n / p;
    assert 2 <= k;
    assert p <= k;
    MulLeftMonotone(p, p, k);
  }

  lemma MulLeftMonotone(p: int, a: int, b: int)
    requires 0 <= p && a <= b
    ensures p * a <= p * b
  {
  }

  function Factorial(m: nat): (r: nat)
    ensures r >= 1
  {
    if m == 0 then 1 else m * Factorial(m - 1)
  }

  /** `m!` is a multiple of every number from 1 to `m`. */
  lemma {:induction false} FactorialMultiple(m: nat, d: int)
    requires 1 <= d <= m
    ensures Factorial(m) % d == 0
  {
    if d == m {
      DivModUnique(Factorial(m), m, Factorial(m - 1), 0);
    } else {
      FactorialMultiple(m - 1, d);
      var k := Factorial(m - 1) / d;
      assert Factorial(m - 1) == d * k;
      assert Factorial(m) == d * (m * k);
      DivModUnique(Factorial(m), d, m * k, 0);
    }
  }

  /** A prime above `m`: the smallest divisor of `m! + 1` (Euclid). */
  ghost function PrimeAbove(m: nat): (p: int)
    ensures Prime(p) && p > m
  {
    var n := Factorial(m) + 1;
    var p := SmallestDivisorFrom(n, 2);
    SmallestDivisorPrime(n);
    if p <= m then
      FactorialMultiple(m, p);
      DivModUnique(n, p, Factorial(m) / p, 1);
      assert false;
      p
    else
      p
  }

  // ------------------------------------------------------------ primality

  /** `is_prime`: below 2 no, 2 yes, other even numbers no, then the odd candidates from 3 up
      to the whole square root, stopping at the first divisor. */
  method IsPrime(n: int) returns (r: bool)
    ensures r <==> Prime(n)
  {
    if n < 2 {
      return false;
    }
    if n == 2 {
      return true;
    }
    if n % 2 == 0 {
      return false;
    }
    var limit := Isqrt(n);
    var i := 3;
    ghost var half := 1;
    while i <= limit
      invariant 3 <= i && i == 2 * half + 1
      invariant forall d :: 3 <= d < i && d % 2 == 1 ==> n % d != 0
    {
      if n % i == 0 {
        DivisorBelowRoot(n, i);
        return false;
      }
      OddStep(n, i, half);
      i, half := i + 2, half + 1;
    }
    NoOddDivisorBelowRoot(n, i);
    return true;
  }

  /** Passing the odd candidate `i` that does not divide `n` extends the range searched to
      `i + 2`, the even number in between being no candidate. */
  lemma OddStep(n: int, i: int, half: int)
    requires i == 2 * half + 1 && n % i != 0
    requires forall d :: 3 <= d < i && d % 2 == 1 ==> n % d != 0
    ensures forall d :: 3 <= d < i + 2 && d % 2 == 1 ==> n % d != 0
  {
    assert (i + 1) % 2 == 0;
  }

  /** A divisor from 3 up to the whole square root makes `n` composite. */
  lemma DivisorBelowRoot(n: int, i: int)
    requires n >= 3 && 3 <= i <= Isqrt(n) && n % i == 0
    ensures !Prime(n)
  {
    IsqrtBound(n, i);
    MulLeftMonotone(i, 3, i);
    assert 2 <= i < n && n % i == 0;
  }

  /** An odd `n` without an odd divisor from 3 up to its whole square root is prime. */
  lemma NoOddDivisorBelowRoot(n: int, i: int)
    requires n >= 3 && n % 2 == 1 && i > Isqrt(n)
    requires forall d :: 3 <= d < i && d % 2 == 1 ==> n % d != 0
    ensures Prime(n)
  {
    if !Prime(n) {
      SmallDivisor(n);
      var p := SmallestDivisorFrom(n, 2);
      IsqrtBound(n, p);
      assert false;
    }
  }

  // ------------------------------------------------------------ the first primes

  /** `xs` holds exactly the primes below `bound`, in increasing order. */
  ghost predicate PrimesBelow(xs: seq<int>, bound: int)
  {
    (forall j, k :: 0 <= j < k < |xs| ==> xs[j] < xs[k]) &&
    (forall k :: 0 <= k < |xs| ==> Prime(xs[k]) && xs[k] < bound) &&
    (forall p :: 2 <= p < bound && Prime(p) ==> p in xs)
  }

  /** `generate_primes`: test 2, 3, 4, ... and keep the primes until there are `count` of
      them; nothing is kept for a count that is not positive. */
  method GeneratePrimes(count: int) returns (primes: seq<int>)
    ensures |primes| == if count > 0 then count else 0
    ensures forall j, k :: 0 <= j < k < |primes| ==> primes[j] < primes[k]
    ensures forall k :: 0 <= k < |primes| ==> Prime(primes[k])
    ensures primes != [] ==> PrimesBelow(primes, primes[|primes| - 1] + 1)
  {
    primes := [];
    var num := 2;
    ghost var next := 2;
    while |primes| < count
      invariant 2 <= num <= next && Prime(next)
      invariant |primes| <= if count > 0 then count else 0
      invariant Listed(primes, num)
      decreases count - |primes|, next - num
    {
      var found;
      primes, found := TestNumber(primes, num);
      num := num + 1;
      if found {
        next := PrimeAbove(num);
      }
    }
    PrimesUpToLast(primes, num);
  }

  /** `primes` holds the primes below `num`, in increasing order. */
  ghost predicate Listed(primes: seq<int>, num: int)
  {
    PrimesBelow(primes, num) && (primes != [] ==> primes[|primes| - 1] < num)
  }

  /** One round of `generate_primes`: `num` is appended exactly when it is prime. */
  method TestNumber(primes: seq<int>, num: int) returns (after: seq<int>, found: bool)
    requires Listed(primes, num)
    ensures found <==> Prime(num)
    ensures after == if found then primes + [num] else primes
    ensures Listed(after, num + 1)
  {
    found := IsPrime(num);
    PrimesBelowNext(primes, num);
    after := if found then primes + [num] else primes;
  }

  /** The primes below `num`, the last of them below `num`, are the primes up to the last. */
  lemma PrimesUpToLast(primes: seq<int>, num: int)
    requires Listed(primes, num)
    ensures forall j, k :: 0 <= j < k < |primes| ==> primes[j] < primes[k]
    ensures forall k :: 0 <= k < |primes| ==> Prime(primes[k])
    ensures primes != [] ==> PrimesBelow(primes, primes[|primes| - 1] + 1)
  {
    if primes != [] {
      var last := primes[|primes| - 1];
      forall k | 0 <= k < |primes| ensures primes[k] < last + 1 {
        if k < |primes| - 1 {
          assert primes[k] < primes[|primes| - 1];
        }
      }
    }
  }

  /** Testing `num` extends the primes below `num` to the primes below `num + 1`. */
  lemma PrimesBelowNext(primes: seq<int>, num: int)
    requires Listed(primes, num)
    ensures Listed(if Prime(num) then primes + [num] else primes, num + 1)
  {
  }

  /** The first primes are the primes up to the last one: every prime strictly below a listed
      prime is listed before it. */
  lemma FirstPrimesNoneSkipped(primes: seq<int>, p: int, k: int)
    requires primes != [] && PrimesBelow(primes, primes[|primes| - 1] + 1)
    requires 0 <= k < |primes| && Prime(p) && p < primes[k]
    ensures exists j :: 0 <= j < k && primes[j] == p
  {
    var j :| 0 <= j < |primes| && primes[j] == p;
    assert j < k;
  }

  // ------------------------------------------------------------ endpoints

  datatype PrimesResponse =
    | PrimesError(error: string)
    | PrimesList(count: nat, primes: seq<int>, durationMs: int)

  const CountRequired := "Parâmetro \"count\" é obrigatório"
  const CountPositive := "O parâmetro \"count\" deve ser um número positivo"
  const CountLimit := "Limite máximo de 10.000 números primos por requisição"

  /** The count check of `/primes?count=n` as written: the message announces a limit of
      10,000 but the bound compared against is 100,000. `None` is a missing or non-integer count. */
  function QueryCountErrorAsWritten(count: Option<int>): (r: Option<string>)
    ensures r.None? <==> count.Some? && 0 < count.value <= 100000
  {
    if count.None? then Some(CountRequired)
    else if count.value <= 0 then Some(CountPositive)
    else if count.value > 100000 then Some(CountLimit)
    else None
  }

  /** The count check of `/primes?count=n` with the limit its message announces. */
  function QueryCountError(count: Option<int>): (r: Option<string>)
    ensures r.None? <==> count.Some? && 0 < count.value <= 10000
    ensures count.None? ==> r == Some(CountRequired)
  {
    if count.None? then Some(CountRequired)
    else if count.value <= 0 then Some(CountPositive)
    else if count.value > 10000 then Some(CountLimit)
    else None
  }

  /** The count check of `/primes/<count>`. */
  function PathCountError(count: int): (r: Option<string>)
    ensures r.None? <==> 0 < count <= 10000
  {
    if count <= 0 then Some(CountPositive)
    else if count > 10000 then Some(CountLimit)
    else None
  }

  /** As written, the query endpoint serves 50,000 primes while the path endpoint and the
      query endpoint's own message refuse that many. */
  lemma QueryLimitDisagrees()
    ensures QueryCountErrorAsWritten(Some(50000)).None?
    ensures PathCountError(50000) == Some(CountLimit)
  {
  }

  /** With the announced limit both endpoints accept and refuse the same counts, with the
      same messages. */
  lemma EndpointsAgree(count: int)
    ensures QueryCountError(Some(count)) == PathCountError(count)
  {
  }

  /** A successful response reports as many primes as it lists. */
  predicate Reported(r: PrimesResponse)
  {
    r.PrimesList? ==> r.count == |r.primes|
  }

  /** `/primes?count=n`: 400 with the message of the failed check as written (counts up to
      100,000 pass), otherwise 200 with the first `n` primes and their number. `durationMs` is
      the measured time. */
  method GetPrimes(count: Option<int>, durationMs: int) returns (status: int, response: PrimesResponse)
    ensures QueryCountErrorAsWritten(count).Some? ==> status == 400 && response == PrimesError(QueryCountErrorAsWritten(count).value)
    ensures QueryCountErrorAsWritten(count).None? ==>
      (status == 200 && response.PrimesList? && response.count == count.value && Reported(response) &&
       PrimesBelow(response.primes, response.primes[response.count - 1] + 1))
  {
    var error := QueryCountErrorAsWritten(count);
    if error.Some? {
      return 400, PrimesError(error.value);
    }
    var primeList := GeneratePrimes(count.value);
    return 200, PrimesList(|primeList|, primeList, durationMs);
  }

  /** `/primes/<count>`: the same with the path's count check. */
  method GetPrimesByPath(count: int, durationMs: int) returns (status: int, response: PrimesResponse)
    ensures PathCountError(count).Some? ==> status == 400 && response == PrimesError(PathCountError(count).value)
    ensures PathCountError(count).None? ==>
      (status == 200 && response.PrimesList? && response.count == count && Reported(response) &&
       PrimesBelow(response.primes, response.primes[response.count - 1] + 1))
  {
    var error := PathCountError(count);
    if error.Some? {
      return 400, PrimesError(error.value);
    }
    var primeList := GeneratePrimes(count);
    return 200, PrimesList(|primeList|, primeList, durationMs);
  }
}
