/**
 * IsPrime: trial division by 2 and then by the odd numbers below
 * int(sqrt(n)) + 1.
 */
module Primes {

  /** n is prime: at least 2 and without a divisor strictly between 1 and n. */
  predicate IsPrimeSpec(n: int) {
    n >= 2 && forall d :: 2 <= d < n ==> n % d != 0
  }

  /** No odd number from 3 up to, but excluding, bound divides n. */
  predicate NoOddDivisorBelow(n: int, bound: int) {
    forall e :: 3 <= e < bound && e % 2 == 1 ==> n % e != 0
  }

  /** The integer square root, standing for int(math.sqrt(n)). */
  function Isqrt(n: nat): (r: nat)
    ensures r * r <= n < (r + 1) * (r + 1)
  {
    if n < 4 then (if n == 0 then 0 else 1)
    else
      var h := 2 * Isqrt(n / 4);
      SqrtStep(n, h / 2);
      if (h + 1) * (h + 1) <= n then h + 1 else h
  }

  /** From the root of n / 4 to the root of n: the answer is 2q or 2q + 1. */
  lemma SqrtStep(n: nat, q: nat)
    requires q * q <= n / 4 < (q + 1) * (q + 1)
    ensures (2 * q) * (2 * q) <= n
    ensures n < (2 * q + 2) * (2 * q + 2)
  {
    assert (2 * q) * (2 * q) == 4 * (q * q);
    assert (2 * q + 2) * (2 * q + 2) == 4 * ((q + 1) * (q + 1));
  }

  /** Squaring is monotone on the naturals. */
  lemma SquareMono(a: nat, b: nat)
    ensures a <= b ==> a * a <= b * b
  {
    if a <= b {
      assert a * a <= a * b <= b * b;
    }
  }

  /** A number at least 2 exceeds every natural whose square it bounds. */
  lemma RootBelow(n: int, r: nat)
    requires n >= 2 && r * r <= n
    ensures r < n
  {
    SquareMono(n as nat, r);
    MulAtLeast(n, n);
  }

  /** For n >= 2 the root lies below n. */
  lemma IsqrtBelow(n: nat)
    requires n >= 2
    ensures Isqrt(n) < n
  {
    RootBelow(n, Isqrt(n));
  }

  /** Multiplying a positive number by at least 2 at least doubles it; by at least 1 keeps it. */
  lemma MulAtLeast(q: int, k: int)
    ensures q > 0 && k >= 1 ==> q * k >= q
    ensures q > 0 && k >= 2 ==> q * k >= 2 * q
  {
  }

  /** A product of two factors above r is at least (r + 1) squared. */
  lemma ProductAbove(a: int, b: int, r: int)
    ensures 0 <= r < a && r < b ==> (r + 1) * (r + 1) <= a * b
  {
    if 0 <= r < a && r < b {
      assert (r + 1) * (r + 1) <= a * (r + 1) <= a * b;
    }
  }

  /** An even factor makes the product even. */
  lemma EvenFactor(a: int, b: int)
    ensures a % 2 == 0 ==> (a * b) % 2 == 0
  {
    if a % 2 == 0 {
      assert a * b == 2 * ((a / 2) * b);
    }
  }

  /** A multiple of q leaves no remainder modulo q. */
  lemma MultipleMod(q: int, d: int)
    requires q > 0
    ensures (q * d) % q == 0
  {
    var n := q * d;
    assert n == q * d + 0;
    assert n / q == d && n % q == 0 by {
      DivModUnique(n, q, d, 0);
    }
  }

  /** Euclidean division is unique. */
  lemma DivModUnique(n: int, q: int, a: int, b: int)
    requires q > 0 && 0 <= b < q && n == q * a + b
    ensures n / q == a && n % q == b
  {
    var a', b' := n / q, n % q;
    assert n == q * a' + b';
    assert q * (a - a') == b' - b;
    MulAtLeast(q, a - a');
    MulAtLeast(q, a' - a);
    assert q * (a' - a) == b - b';
  }

  /** A product with a factor 0 or 1 is at most the other factor. */
  lemma MulSmall(d: int, q: int)
    ensures d >= 0 && 0 <= q <= 1 ==> d * q <= d
  {
  }

  /** A positive product with a positive factor has a positive cofactor. */
  lemma PositiveCofactor(d: int, q: int)
    ensures d > 0 && d * q > 0 ==> q > 0
  {
  }

  /** The quotient of n by a proper divisor d is at least 2 and divides n too. */
  lemma Cofactor(n: int, d: int)
    requires n >= 3 && 2 <= d < n && n % d == 0
    ensures var q := n / d; n == d * q && q >= 2 && n % q == 0
  {
    var q := n / d;
    assert n == d * q;
    PositiveCofactor(d, q);
    MulSmall(d, q);
    MultipleMod(q, d);
    assert n == q * d;
  }

  /**
   * An odd n >= 3 with a proper divisor has an odd one between 3 and its
   * square root r: of d and n / d, the smaller is at most r.
   */
  lemma SmallOddDivisor(n: int, r: nat, d: int) returns (e: int)
    requires n >= 3 && n % 2 == 1 && r * r <= n < (r + 1) * (r + 1)
    requires 2 <= d < n && n % d == 0
    ensures 3 <= e <= r && e % 2 == 1 && n % e == 0
  {
    Cofactor(n, d);
    var q := n / d;
    var f;
    if d <= q {
      e, f := d, q;
    } else {
      e, f := q, d;
      assert n == e * f;
    }
    SmallerFactor(n, r, e, f);
  }

  /** Of two factors of an odd n, the smaller is odd, at least 3 and at most the root. */
  lemma SmallerFactor(n: int, r: nat, e: int, f: int)
    requires n % 2 == 1 && n < (r + 1) * (r + 1)
    requires 2 <= e <= f && n == e * f
    ensures 3 <= e <= r && e % 2 == 1
  {
    ProductAbove(e, f, r);
    EvenFactor(e, f);
  }

  /**
   * An odd n >= 3 that no odd number between 3 and its square root r
   * divides is prime.
   */
  lemma NoSmallOddDivisorPrime(n: int, r: nat)
    requires n >= 3 && n % 2 == 1 && r * r <= n < (r + 1) * (r + 1)
    requires NoOddDivisorBelow(n, r + 1)
    ensures IsPrimeSpec(n)
  {
    forall d | 2 <= d < n
      ensures n % d != 0
    {
      if n % d == 0 {
        var e := SmallOddDivisor(n, r, d);
      }
    }
  }

  /** One more odd number that does not divide n extends the range by two. */
  lemma OddStep(n: int, d: int)
    requires d % 2 == 1 && NoOddDivisorBelow(n, d) && n % d != 0
    ensures NoOddDivisorBelow(n, d + 2)
  {
    forall e | 3 <= e < d + 2 && e % 2 == 1
      ensures n % e != 0
    {
      assert e < d || e == d;
    }
  }

  /** A divisor strictly between 1 and n makes n composite. */
  lemma DivisorNotPrime(n: int, d: int)
    requires 2 <= d < n && n % d == 0
    ensures !IsPrimeSpec(n)
  {
  }

  /** 2 is the only even prime, and nothing below 2 is prime. */
  lemma EvenNotPrime(n: int)
    requires n != 2 && (n % 2 == 0 || n <= 1)
    ensures !IsPrimeSpec(n)
  {
    if n > 2 {
      assert n % 2 == 0;
    }
  }

  /** The trial-division test; it answers true exactly for the primes. */
  method IsPrime(number: int) returns (prime: bool)
    ensures prime <==> IsPrimeSpec(number)
  {
    if number == 2 {
      return true;
    }
    if number % 2 == 0 || number <= 1 {
      EvenNotPrime(number);
      return false;
    }
    var sqr := Isqrt(number) + 1;
    var divisor := 3;
    while divisor < sqr
      invariant 3 <= divisor && divisor % 2 == 1
      invariant NoOddDivisorBelow(number, divisor)
      decreases sqr - divisor
    {
      if number % divisor == 0 {
        RootBelow(number, sqr - 1);
        DivisorNotPrime(number, divisor);
        return false;
      }
      OddStep(number, divisor);
      divisor := divisor + 2;
    }
    NoSmallOddDivisorPrime(number, sqr - 1);
    return true;
  }

  lemma TwoIsPrime()
    ensures IsPrimeSpec(2)
  {
  }
}
