/**
 The bucket counts of the hash table: trial division by 6k +- 1 decides
 primality, and the search for the next prime ends.
 */
module Primes {

  ghost predicate Divides(d: nat, n: nat)
    requires d > 0
  {
    n % d == 0
  }

  ghost predicate Prime(n: nat) {
    n >= 2 && forall d :: 2 <= d < n ==> !Divides(d, n)
  }

  /** n has no divisor below i. */
  ghost predicate NoneBelow(n: nat, i: nat) {
    forall d :: 2 <= d < i ==> !Divides(d, n)
  }

  // -------------------------------------------------------------------
  // Divisibility
  // -------------------------------------------------------------------

  lemma {:induction false} Quotient(n: nat, d: nat)
    requires d > 0 && Divides(d, n)
    ensures n == d * (n / d)
  {
  }

  lemma {:induction false} Multiple(k: nat, d: nat)
    requires d > 0
    ensures Divides(d, k * d)
    decreases k
  {
    if k > 0 {
      Multiple(k - 1, d);
      assert k * d == (k - 1) * d + d;
      ModAdd((k - 1) * d, d);
    }
  }

  lemma {:induction false} ModAdd(a: nat, d: nat)
    requires d > 0
    ensures (a + d) % d == a % d
  {
    var q, r := a / d, a % d;
    assert a == q * d + r;
    assert a + d == (q + 1) * d + r by { assert (q + 1) * d == q * d + d; }
    Unique(a + d, d, q + 1, r);
  }

  lemma {:induction false} Unique(a: nat, d: nat, q: nat, r: nat)
    requires d > 0 && a == q * d + r && r < d
    ensures a / d == q && a % d == r
  {
    var p, s := a / d, a % d;
    assert a == p * d + s && 0 <= s < d;
    MoreTimes(p, q, d);
    MoreTimes(q, p, d);
  }

  lemma {:induction false} MoreTimes(p: nat, q: nat, d: nat)
    ensures p < q ==> p * d + d <= q * d
  {
    if p < q {
      MulLe(p + 1, q, d);
      assert (p + 1) * d == p * d + d;
    }
  }

  lemma {:induction false} MulLe(a: nat, b: nat, d: nat)
    requires a <= b
    ensures a * d <= b * d
  {
    assert b * d == a * d + (b - a) * d;
  }

  lemma {:induction false} DividesTrans(p: nat, d: nat, n: nat)
    requires p > 0 && d > 0 && Divides(p, d) && Divides(d, n)
    ensures Divides(p, n)
  {
    Quotient(d, p);
    Quotient(n, d);
    var k := (n / d) * (d / p);
    assert n == k * p by {
      assert n == d * (n / d) == (p * (d / p)) * (n / d);
      Regroup(p, d / p, n / d);
    }
    Multiple(k, p);
  }

  lemma {:induction false} Regroup(a: nat, b: nat, c: nat)
    ensures (a * b) * c == (c * b) * a
  {
  }

  /** A proper divisor has a partner. */
  lemma {:induction false} Partner(n: nat, d: nat)
    requires 2 <= d < n && Divides(d, n)
    ensures 2 <= n / d < n && Divides(n / d, n)
  {
    var e := n / d;
    Quotient(n, d);
    assert n == d * e;
    assert e < 2 ==> d * e <= d;
    assert n == e * d;
    Multiple(d, e);
    assert d * e == e * d;
    assert e < n by { assert d * e >= 2 * e; }
  }

  // -------------------------------------------------------------------
  // ll_is_prime
  // -------------------------------------------------------------------

  /** Nothing below a square root: nothing at all. */
  lemma {:induction false} RootIsEnough(n: nat, i: nat)
    requires n >= 2 && i >= 2 && NoneBelow(n, i) && i * i > n
    ensures Prime(n)
  {
    forall d | 2 <= d < n
      ensures !Divides(d, n)
    {
      if Divides(d, n) {
        Partner(n, d);
        Quotient(n, d);
        BothLarge(i, d, n / d);
      }
    }
  }

  lemma {:induction false} BothLarge(i: nat, d: nat, e: nat)
    ensures d >= i && e >= i ==> d * e >= i * i
  {
    if d >= i && e >= i {
      MulLe(i, d, i);
      MulLe(i, e, d);
      assert d * e == e * d && i * d == d * i;
    }
  }

  /** Of six numbers in a row from 6k + 5, two can be the first divisor. */
  lemma {:induction false} SixMore(n: nat, i: nat)
    requires i % 6 == 5 && NoneBelow(n, i) && i >= 5
    requires !Divides(i, n) && !Divides(i + 2, n)
    ensures NoneBelow(n, i + 6)
  {
    assert !Divides(2, n) && !Divides(3, n);
    forall d | i <= d < i + 6
      ensures !Divides(d, n)
    {
      if d == i + 4 {
        NotThrough(3, d, n);
      } else if d != i && d != i + 2 {
        NotThrough(2, d, n);
      }
    }
  }

  lemma {:induction false} NotThrough(p: nat, d: nat, n: nat)
    requires p > 0 && d > 0 && Divides(p, d) && !Divides(p, n)
    ensures !Divides(d, n)
  {
    if Divides(d, n) { DividesTrans(p, d, n); }
  }

  lemma {:induction false} SmallCases(n: nat)
    requires n >= 4 && n % 2 != 0 && n % 3 != 0
    ensures NoneBelow(n, 5)
  {
    if Divides(4, n) { DividesTrans(2, 4, n); }
  }

  method IsPrime(n: nat) returns (b: bool)
    ensures b <==> Prime(n)
  {
    if n < 2 {
      return false;
    }
    if n == 2 || n == 3 {
      assert NoneBelow(3, 3) by { assert !Divides(2, 3); }
      return true;
    }
    if n % 2 == 0 || n % 3 == 0 {
      assert Divides(2, n) || Divides(3, n);
      return false;
    }
    SmallCases(n);
    var i := 5;
    while i * i <= n
      invariant i >= 5 && i % 6 == 5 && NoneBelow(n, i)
      decreases n - i
    {
      assert i < n by { MulLe(2, i, i); }
      if n % i == 0 || n % (i + 2) == 0 {
        Composite(n, i);
        return false;
      }
      SixMore(n, i);
      i := i + 6;
    }
    RootIsEnough(n, i);
    return true;
  }

  lemma {:induction false} Composite(n: nat, i: nat)
    requires i >= 5 && i * i <= n && (Divides(i, n) || Divides(i + 2, n))
    ensures !Prime(n)
  {
    MulLe(2, i, i);
    assert i + 2 < 2 * i <= i * i;
  }

  // -------------------------------------------------------------------
  // There is always a next prime
  // -------------------------------------------------------------------

  function Factorial(n: nat): (f: nat)
    ensures f >= 1
  {
    if n == 0 then 1 else n * Factorial(n - 1)
  }

  lemma {:induction false} FactorialDivided(n: nat, d: nat)
    requires 1 <= d <= n
    ensures Divides(d, Factorial(n))
  {
    if d == n {
      Multiple(Factorial(n - 1), n);
      assert Factorial(n) == Factorial(n - 1) * n;
    } else {
      FactorialDivided(n - 1, d);
      Multiple(n, Factorial(n - 1));
      DividesTrans(d, Factorial(n - 1), Factorial(n));
    }
  }

  /** The least divisor from d on. */
  lemma {:induction false} LeastDivisor(n: nat, d: nat) returns (p: nat)
    requires 2 <= d <= n && NoneBelow(n, d)
    ensures d <= p <= n && Divides(p, n) && NoneBelow(n, p)
    decreases n - d
  {
    if Divides(d, n) {
      p := d;
    } else {
      assert Divides(n, n);
      p := LeastDivisor(n, d + 1);
    }
  }

  lemma {:induction false} LeastIsPrime(n: nat, p: nat)
    requires p >= 2 && Divides(p, n) && NoneBelow(n, p)
    ensures Prime(p)
  {
    forall d | 2 <= d < p
      ensures !Divides(d, p)
    {
      if Divides(d, p) { DividesTrans(d, p, n); }
    }
  }

  /** Euclid: some prime is larger than n. */
  lemma {:induction false} PrimeAbove(n: nat) returns (p: nat)
    ensures p > n && Prime(p)
  {
    var m := Factorial(n) + 1;
    p := LeastDivisor(m, 2);
    LeastIsPrime(m, p);
    if p <= n {
      FactorialDivided(n, p);
      NotBoth(Factorial(n), p);
    }
  }

  lemma {:induction false} NotBoth(f: nat, p: nat)
    requires p >= 2 && Divides(p, f)
    ensures !Divides(p, f + 1)
  {
    Quotient(f, p);
    Unique(f + 1, p, f / p, 1);
  }

  /** ll_next_prime */
  method NextPrime(n: nat) returns (p: nat)
    ensures Prime(p) && p >= n && forall q :: n <= q < p ==> !Prime(q)
  {
    p := if n < 2 then 2 else n;
    ghost var bound := PrimeAbove(p);
    var found := IsPrime(p);
    while !found
      invariant n <= p <= bound && p >= 2 && (found <==> Prime(p))
      invariant forall q :: n <= q < p ==> !Prime(q)
      decreases bound - p
    {
      p := p + 1;
      found := IsPrime(p);
    }
  }
}
