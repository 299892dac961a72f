/** The CPU-bound work of the CPU-vs-IO demo: trial-division primality and
    a count of the primes up to a bound. The square root the source takes in
    floating point is the integer square root here. */
module CpuVsIo {

  /** d divides n. */
  predicate Divides(d: int, n: int)
    requires d > 0
  {
    n % d == 0
  }

  /** Mathematical primality: at least 2 and no divisor strictly between 1
      and itself. */
  ghost predicate Prime(n: int) {
    n >= 2 && forall d :: 2 <= d < n ==> !Divides(d, n)
  }

  /** The largest r with r * r <= n. */
  function ISqrt(n: nat): (r: nat)
    ensures r * r <= n < (r + 1) * (r + 1)
  {
    if n == 0 then 0
    else
      var s := ISqrt(n - 1);
      if (s + 1) * (s + 1) <= n then s + 1 else s
  }

  /** Multiplying by a non-negative factor keeps the order. */
  lemma MulLeft(a: int, b: int, c: int)
    requires a <= b && c >= 0
    ensures a * c <= b * c
  {
  }

  /** A multiple of d is divisible by d. */
  lemma {:induction false} MultipleDivides(d: int, k: int)
    requires d > 0
    ensures Divides(d, d * k)
  {
    var q := (d * k) / d;
    var m := (d * k) % d;
    assert d * k == d * q + m && 0 <= m < d;
    assert d * (k - q) == m;
    if k - q >= 1 {
      MulLeft(1, k - q, d);
    } else if k - q <= -1 {
      MulLeft(k - q, -1, d);
    }
  }

  /** An odd number has no even divisor. */
  lemma OddHasNoEvenDivisor(n: int, d: int)
    requires n % 2 == 1 && d >= 2 && d % 2 == 0
    ensures !Divides(d, n)
  {
    if Divides(d, n) {
      var k := n / d;
      assert n == d * k;
      var h := d / 2;
      assert d == 2 * h;
      assert n == 2 * (h * k);
      MultipleDivides(2, h * k);
      assert false;
    }
  }

  /** The integer square root of n >= 2 is below n. */
  lemma RootBelow(n: int)
    requires n >= 2
    ensures ISqrt(n) < n
  {
    var r := ISqrt(n);
    if r >= n {
      MulLeft(n, r, r);
      MulLeft(2, n, n);
      assert false;
    }
  }

  /** The cofactor of a proper divisor is at least 2. */
  lemma Cofactor(n: int, d: int) returns (q: int)
    requires n >= 2 && 2 <= d < n && Divides(d, n)
    ensures q >= 2 && n == d * q
  {
    q := n / d;
    assert n == d * q;
    if q <= 0 {
      MulLeft(q, 0, d);
    }
    assert q != 1;
  }

  /** Two factors above r multiply to at least (r + 1) squared. */
  lemma ProductAbove(d: int, q: int, r: int)
    requires r >= 0 && d >= r + 1 && q >= r + 1
    ensures d * q >= (r + 1) * (r + 1)
  {
    MulLeft(r + 1, d, q);
    MulLeft(r + 1, q, r + 1);
  }

  /** A number with a divisor between 2 and itself also has one no larger
      than its integer square root. */
  lemma SmallDivisor(n: int, d: int) returns (e: int)
    requires n >= 2 && 2 <= d < n && Divides(d, n)
    ensures 2 <= e <= ISqrt(n) && Divides(e, n)
  {
    var r := ISqrt(n);
    if d <= r {
      return d;
    }
    var q := Cofactor(n, d);
    if q > r {
      ProductAbove(d, q, r);
      assert false;
    }
    MultipleDivides(q, d);
    assert q * d == n;
    return q;
  }

  /** Trial division up to the square root decides primality: n >= 2 is
      prime exactly when nothing in 2..ISqrt(n) divides it. */
  lemma TrialDivisionUpToRoot(n: int)
    requires n >= 2
    ensures Prime(n) <==> forall d :: 2 <= d <= ISqrt(n) ==> !Divides(d, n)
  {
    var r := ISqrt(n);
    if forall d :: 2 <= d <= r ==> !Divides(d, n) {
      forall d | 2 <= d < n
        ensures !Divides(d, n)
      {
        if Divides(d, n) {
          var e := SmallDivisor(n, d);
          assert false;
        }
      }
    } else {
      var d :| 2 <= d <= r && Divides(d, n);
      RootBelow(n);
    }
  }

  /** No odd number from 3 up to (not including) k divides n. */
  predicate NoOddDivisorBelow(n: int, k: int) {
    forall i :: 3 <= i < k && i % 2 == 1 ==> !Divides(i, n)
  }

  /** One more odd candidate that fails to divide n extends the range. */
  lemma NoOddDivisorStep(n: int, i: int)
    requires i >= 3 && i % 2 == 1 && NoOddDivisorBelow(n, i) && !Divides(i, n)
    ensures NoOddDivisorBelow(n, i + 2)
  {
    forall j | 3 <= j < i + 2 && j % 2 == 1
      ensures !Divides(j, n)
    {
      if j >= i {
        assert j == i;
      }
    }
  }

  /** For odd n >= 5 only the odd candidates 3, 5, ... up to the square root
      need trying. */
  lemma OddTrialDivision(n: int)
    requires n >= 5 && n % 2 == 1
    ensures Prime(n) <==> NoOddDivisorBelow(n, ISqrt(n) + 1)
  {
    TrialDivisionUpToRoot(n);
    if NoOddDivisorBelow(n, ISqrt(n) + 1) {
      forall d | 2 <= d <= ISqrt(n)
        ensures !Divides(d, n)
      {
        if d % 2 == 0 {
          OddHasNoEvenDivisor(n, d);
        }
      }
    }
  }

  /** A divisor strictly between 1 and n shows n is not prime. */
  lemma Composite(n: int, d: int)
    requires 2 <= d < n && Divides(d, n)
    ensures !Prime(n)
  {
  }

  /** The answers the early returns of `IsPrime` give. */
  lemma SmallCases(n: int)
    ensures n <= 1 ==> !Prime(n)
    ensures Prime(2) && Prime(3)
    ensures n >= 4 && n % 2 == 0 ==> !Prime(n)
  {
    assert !Divides(2, 3);
    if n >= 4 && n % 2 == 0 {
      Composite(n, 2);
    }
  }

  /** `IsPrime(n)`: false below 2, true for 2 and 3, false for other even
      numbers, and otherwise true exactly when no odd i from 3 up to the
      integer square root divides n. */
  method IsPrime(n: int) returns (b: bool)
    ensures b <==> Prime(n)
  {
    if n <= 1 {
      SmallCases(n);
      return false;
    }
    if n <= 3 {
      SmallCases(n);
      return true;
    }
    if n % 2 == 0 {
      SmallCases(n);
      return false;
    }
    var r := ISqrt(n);
    b := TryOddDivisors(n, r);
    OddTrialDivision(n);
  }

  /** The loop of `IsPrime`: tries i = 3, 5, ... while i <= r and stops at
      the first i dividing n. */
  method TryOddDivisors(n: int, r: int) returns (b: bool)
    ensures b <==> NoOddDivisorBelow(n, r + 1)
  {
    var i := 3;
    while i <= r
      invariant i >= 3 && i % 2 == 1
      invariant NoOddDivisorBelow(n, i)
    {
      if n % i == 0 {
        assert !NoOddDivisorBelow(n, r + 1) by {
          assert 3 <= i < r + 1 && i % 2 == 1 && Divides(i, n);
        }
        return false;
      }
      NoOddDivisorStep(n, i);
      i := i + 2;
    }
    return true;
  }

  /** The number of primes in 2..max. */
  ghost function PrimeCount(max: int): (r: nat)
    ensures max < 2 ==> r == 0
    decreases max
  {
    if max < 2 then 0
    else PrimeCount(max - 1) + (if Prime(max) then 1 else 0)
  }

  /** The count never goes down as the bound grows, and grows by at most one
      per step. */
  lemma {:induction false} PrimeCountMonotone(a: int, b: int)
    requires a <= b
    ensures PrimeCount(a) <= PrimeCount(b) <= PrimeCount(a) + (b - a)
    decreases b - a
  {
    if a < b {
      PrimeCountMonotone(a, b - 1);
    }
  }

  /** The primes in 2..max. */
  ghost function PrimesUpTo(max: int): set<int> {
    set i | 2 <= i <= max && Prime(i)
  }

  /** PrimeCount counts exactly the primes in 2..max. */
  lemma {:induction false} PrimeCountIsCardinality(max: int)
    ensures PrimeCount(max) == |PrimesUpTo(max)|
    decreases max
  {
    if max < 2 {
      assert PrimesUpTo(max) == {};
    } else {
      PrimeCountIsCardinality(max - 1);
      if Prime(max) {
        assert PrimesUpTo(max) == PrimesUpTo(max - 1) + {max};
      } else {
        assert PrimesUpTo(max) == PrimesUpTo(max - 1);
      }
    }
  }

  /** `CountPrimes(max)`: tests 2, 3, ..., max with IsPrime and counts the
      hits; 0 when max < 2. */
  method CountPrimes(max: int) returns (count: int)
    requires max < 0x7FFF_FFFF
    ensures count == PrimeCount(max)
  {
    count := 0;
    var i := 2;
    while i <= max
      invariant 2 <= i && (i <= max + 1 || i == 2)
      invariant count == PrimeCount(i - 1)
      decreases max - i
    {
      var b := IsPrime(i);
      if b {
        count := count + 1;
      }
      i := i + 1;
    }
  }
}
