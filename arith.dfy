/**
 * Integer arithmetic behind the bus timetable of day 13 and the handshake
 * of day 25: powers, Euclidean division facts, Bezout's identity, Euclid's
 * lemma and Fermat's little theorem. `%` and `/` here are Euclidean, which
 * agrees with Python's floor semantics whenever the divisor is positive.
 */
module Arith {

  function Pow(b: int, e: nat): int {
    if e == 0 then 1 else b * Pow(b, e - 1)
  }

  lemma {:induction false} PowAdd(b: int, e1: nat, e2: nat)
    ensures Pow(b, e1 + e2) == Pow(b, e1) * Pow(b, e2)
  {
    if e1 > 0 {
      PowAdd(b, e1 - 1, e2);
      assert Pow(b, e1 + e2) == b * Pow(b, e1 - 1 + e2);
    }
  }

  lemma {:induction false} PowNonNeg(b: int, e: nat)
    requires b >= 0
    ensures Pow(b, e) >= 0
  {
    if e > 0 {
      PowNonNeg(b, e - 1);
      MulNonNeg(b, Pow(b, e - 1));
    }
  }

  lemma MulNonNeg(a: int, b: int)
    requires a >= 0 && b >= 0
    ensures a * b >= 0
  {
  }

  // ---------------------------------------------------------------- division

  /** Euclidean division is unique: a quotient and remainder in range are `/` and `%`. */
  lemma DivModUnique(n: int, d: int, q: int, r: int)
    requires d > 0 && n == d * q + r && 0 <= r < d
    ensures n / d == q && n % d == r
  {
    var q0, r0 := n / d, n % d;
    assert n == d * q0 + r0 && 0 <= r0 < d;
    assert d * (q - q0) == r0 - r;
    if q - q0 >= 1 {
      MulAtLeast(d, q - q0);
    } else if q - q0 <= -1 {
      MulAtLeast(d, q0 - q);
    }
  }

  lemma MulAtLeast(d: int, k: int)
    requires d > 0 && k >= 1
    ensures d * k >= d
  {
    assert d * k == d + d * (k - 1);
    MulNonNeg(d, k - 1);
  }

  /** Adding a multiple of `d` does not change the remainder. */
  lemma ModAddMultiple(a: int, d: int, k: int)
    requires d > 0
    ensures (a + d * k) % d == a % d
  {
    assert a == d * (a / d) + a % d;
    assert a + d * k == d * (a / d + k) + a % d;
    DivModUnique(a + d * k, d, a / d + k, a % d);
  }

  /** `n % d == 0` exactly when `n` is `d` times something. */
  lemma DividesIff(n: int, d: int, k: int)
    requires d > 0 && n == d * k
    ensures n % d == 0
  {
    DivModUnique(n, d, k, 0);
  }

  /** Remainders add and multiply: the usual congruence rules. */
  lemma ModAdd(a: int, b: int, d: int)
    requires d > 0
    ensures (a + b) % d == (a % d + b % d) % d
  {
    assert a == d * (a / d) + a % d && b == d * (b / d) + b % d;
    assert a + b == (a % d + b % d) + d * (a / d + b / d);
    ModAddMultiple(a % d + b % d, d, a / d + b / d);
  }

  lemma ModMul(a: int, b: int, d: int)
    requires d > 0
    ensures (a * b) % d == ((a % d) * (b % d)) % d
  {
    var qa, ra, qb, rb := a / d, a % d, b / d, b % d;
    assert a == d * qa + ra && b == d * qb + rb;
    QuotientProduct(a, b, d, qa, ra, qb, rb);
    ModAddMultiple(ra * rb, d, qa * b + ra * qb);
  }

  /** The product of two quotient/remainder decompositions. */
  lemma QuotientProduct(a: int, b: int, d: int, qa: int, ra: int, qb: int, rb: int)
    requires a == d * qa + ra && b == d * qb + rb
    ensures a * b == ra * rb + d * (qa * b + ra * qb)
  {
    assert a * b == d * qa * b + ra * b;
    assert ra * b == d * (ra * qb) + ra * rb;
  }

  lemma ModMod(a: int, d: int)
    requires d > 0
    ensures (a % d) % d == a % d
  {
    DivModUnique(a % d, d, 0, a % d);
  }

  /** A multiple of `d` times anything is a multiple of `d`. */
  lemma MulOfMultiple(a: int, b: int, d: int)
    requires d > 0 && a % d == 0
    ensures (a * b) % d == 0
  {
    ModMul(a, b, d);
  }

  // ---------------------------------------------------------------- primes

  predicate IsPrime(p: int) {
    p >= 2 && forall d :: 1 < d < p ==> p % d != 0
  }

  /** `ExtGcd(a, b) = (g, x, y)`: `g` divides both and `a·x + b·y == g` (Bezout's identity). */
  function ExtGcd(a: nat, b: nat): (r: (nat, int, int))
    ensures a * r.1 + b * r.2 == r.0
    ensures (a > 0 || b > 0) ==> r.0 > 0 && a % r.0 == 0 && b % r.0 == 0
    decreases b
  {
    if b == 0 then
      assert a > 0 ==> 0 % a == 0 && a % a == 0 by {
        if a > 0 {
          DivModUnique(0, a, 0, 0);
          ModSelf(a);
        }
      }
      (a, 1, 0)
    else
      var t := ExtGcd(b, a % b);
      var q := a / b;
      BezoutStep(a, b, q, a % b, t.1, t.2);
      DividesStep(a, b, q, a % b, t.0);
      (t.0, t.2, t.1 - q * t.2)
  }

  lemma ModSelf(a: int)
    requires a > 0
    ensures a % a == 0
  {
    DivModUnique(a, a, 1, 0);
  }

  lemma BezoutStep(a: int, b: int, q: int, r: int, x: int, y: int)
    requires a == b * q + r
    ensures a * y + b * (x - q * y) == b * x + r * y
  {
    assert a * y == b * q * y + r * y;
    assert b * (x - q * y) == b * x - b * q * y;
  }

  lemma DividesStep(a: int, b: int, q: int, r: int, g: int)
    requires a == b * q + r && g > 0 && b % g == 0 && r % g == 0
    ensures a % g == 0
  {
    MulOfMultiple(b, q, g);
    ModAdd(b * q, r, g);
    DivModUnique(0, g, 0, 0);
  }

  /** A divisor of a prime is 1 or the prime itself. */
  lemma PrimeDivisor(p: int, g: int)
    requires IsPrime(p) && g > 0 && p % g == 0
    ensures g == 1 || g == p
  {
    if g > p {
      DivModUnique(p, g, 0, p);
    }
  }

  /** Euclid's lemma: a prime dividing a product divides one of the factors. */
  lemma Euclid(p: int, a: int, b: int)
    requires IsPrime(p) && (a * b) % p == 0 && a % p != 0
    ensures b % p == 0
  {
    var r := a % p;
    var t := ExtGcd(p, r);
    var g, x, y := t.0, t.1, t.2;
    PrimeDivisor(p, g);
    if g == p {
      DivModUnique(r, p, 0, r);
    }
    assert p * x + r * y == 1;
    // b = p·(b·x) + (r·b)·y, and r·b ≡ a·b ≡ 0 (mod p).
    assert b == p * (b * x) + (r * b) * y by {
      assert b == b * (p * x + r * y);
    }
    assert (r * b) % p == 0 by {
      ModMul(a, b, p);
      ModMul(r, b, p);
      ModMod(a, p);
    }
    MulOfMultiple(r * b, y, p);
    assert ((r * b) * y) % p == 0;
    ModAddMultiple((r * b) * y, p, b * x);
  }

  // ---------------------------------------------------------------- binomials

  function Choose(n: nat, k: nat): nat {
    if k == 0 then 1
    else if n == 0 then 0
    else Choose(n - 1, k - 1) + Choose(n - 1, k)
  }

  lemma {:induction false} ChooseAbove(n: nat, k: nat)
    requires k > n
    ensures Choose(n, k) == 0
  {
    if n > 0 {
      ChooseAbove(n - 1, k - 1);
      ChooseAbove(n - 1, k);
    }
  }

  /** The absorption identity `k·C(n, k) == n·C(n-1, k-1)`. */
  lemma {:induction false} ChooseAbsorb(n: nat, k: nat)
    requires 1 <= k <= n
    ensures k * Choose(n, k) == n * Choose(n - 1, k - 1)
  {
    if k == 1 {
      ChooseOne(n);
      assert Choose(n - 1, 0) == 1;
    } else {
      ChooseAbsorb(n - 1, k - 1);
      if k <= n - 1 {
        ChooseAbsorb(n - 1, k);
      } else {
        ChooseAbove(n - 1, k);
        ChooseAbove(n - 2, k - 1);
      }
      assert Choose(n, k) == Choose(n - 1, k - 1) + Choose(n - 1, k);
      assert Choose(n - 1, k - 1) == Choose(n - 2, k - 2) + Choose(n - 2, k - 1);
      AbsorbStep(n, k, Choose(n - 1, k - 1), Choose(n - 1, k), Choose(n - 2, k - 2), Choose(n - 2, k - 1));
    }
  }

  /** The arithmetic of one absorption step, with Pascal's rule for both rows. */
  lemma AbsorbStep(n: int, k: int, a: int, b: int, c: int, d: int)
    requires (k - 1) * a == (n - 1) * c && k * b == (n - 1) * d && a == c + d
    ensures k * (a + b) == n * a
  {
    // k·(a + b) = a + (k-1)·a + k·b = a + (n-1)·(c + d) = n·a.
    assert k * (a + b) == a + (k - 1) * a + k * b;
    assert (n - 1) * c + (n - 1) * d == (n - 1) * a;
    assert a + (n - 1) * a == n * a;
  }

  lemma {:induction false} ChooseOne(n: nat)
    ensures Choose(n, 1) == n
  {
    if n > 0 {
      ChooseOne(n - 1);
    }
  }

  /** A prime divides every inner binomial coefficient of its row. */
  lemma PrimeDividesChoose(p: nat, k: nat)
    requires IsPrime(p) && 0 < k < p
    ensures Choose(p, k) % p == 0
  {
    ChooseAbsorb(p, k);
    DividesIff(k * Choose(p, k), p, Choose(p - 1, k - 1));
    DivModUnique(k, p, 0, k);
    Euclid(p, k, Choose(p, k));
  }

  /** The first `j` terms of the binomial expansion of (x + 1)^n. */
  function Expansion(n: nat, x: int, j: nat): int {
    if j == 0 then 0 else Expansion(n, x, j - 1) + Choose(n, j - 1) * Pow(x, j - 1)
  }

  /** Pascal's rule, summed: the expansion of row n + 1 is row n plus x times row n, shifted. */
  lemma {:induction false} ExpansionStep(n: nat, x: int, j: nat)
    ensures Expansion(n + 1, x, j + 1) == Expansion(n, x, j + 1) + x * Expansion(n, x, j)
  {
    if j > 0 {
      ExpansionStep(n, x, j - 1);
      var c1, c2, pj, pj1 := Choose(n, j - 1), Choose(n, j), Pow(x, j), Pow(x, j - 1);
      var e, e1 := Expansion(n, x, j), Expansion(n, x, j - 1);
      assert Choose(n + 1, j) == c1 + c2;
      assert pj == x * pj1;
      assert Expansion(n + 1, x, j + 1) == Expansion(n + 1, x, j) + (c1 + c2) * pj;
      assert Expansion(n + 1, x, j) == e + x * e1;
      assert e == e1 + c1 * pj1;
      assert Expansion(n, x, j + 1) == e + c2 * pj;
      Distribute(x, c1, c2, pj1, e1);
    }
  }

  lemma Distribute(x: int, c1: int, c2: int, pj1: int, e1: int)
    ensures (c1 + c2) * (x * pj1) + x * e1 == c2 * (x * pj1) + x * (e1 + c1 * pj1)
  {
    assert (c1 + c2) * (x * pj1) == c1 * (x * pj1) + c2 * (x * pj1);
    assert x * (e1 + c1 * pj1) == x * e1 + x * (c1 * pj1);
    assert c1 * (x * pj1) == x * (c1 * pj1);
  }

  /** The binomial theorem for (x + 1)^n. */
  lemma {:induction false} Binomial(n: nat, x: int)
    ensures Pow(x + 1, n) == Expansion(n, x, n + 1)
  {
    if n > 0 {
      Binomial(n - 1, x);
      ExpansionStep(n - 1, x, n);
      ChooseAbove(n - 1, n);
      var e := Expansion(n - 1, x, n);
      assert Expansion(n - 1, x, n + 1) == e;
      assert Pow(x + 1, n) == (x + 1) * e;
      assert (x + 1) * e == e + x * e;
    }
  }

  /** Modulo a prime p, the inner terms of row p vanish: the first j terms leave 1. */
  lemma {:induction false} ExpansionModPrime(p: nat, x: int, j: nat)
    requires IsPrime(p) && 1 <= j <= p
    ensures Expansion(p, x, j) % p == 1
  {
    if j == 1 {
      assert Expansion(p, x, 1) == 1;
    } else {
      ExpansionModPrime(p, x, j - 1);
      PrimeDividesChoose(p, j - 1);
      AddMultipleTimes(Expansion(p, x, j - 1), Choose(p, j - 1), Pow(x, j - 1), p);
    }
  }

  /** Adding a multiple of `d`, times anything, leaves the remainder. */
  lemma AddMultipleTimes(e: int, c: int, w: int, d: int)
    requires d > 0 && c % d == 0
    ensures (e + c * w) % d == e % d
  {
    var k := c / d;
    assert c == d * k;
    assert c * w == d * (k * w);
    ModAddMultiple(e, d, k * w);
  }

  /** x^p ≡ x (mod p) for a prime p. */
  lemma {:induction false} FermatPow(p: nat, x: nat)
    requires IsPrime(p)
    ensures Pow(x, p) % p == x % p
  {
    if x == 0 {
      assert Pow(0, p) == 0 * Pow(0, p - 1);
    } else {
      FermatPow(p, x - 1);
      Binomial(p, x - 1);
      ExpansionModPrime(p, x - 1, p);
      assert Choose(p, p) == 1 by { ChooseEqual(p); }
      assert Pow(x, p) == Expansion(p, x - 1, p) + Pow(x - 1, p);
      ModAdd(Expansion(p, x - 1, p), Pow(x - 1, p), p);
      ModAdd(1, x - 1, p);
      DivModUnique(1, p, 0, 1);
    }
  }

  lemma {:induction false} ChooseEqual(n: nat)
    ensures Choose(n, n) == 1
  {
    if n > 0 {
      ChooseEqual(n - 1);
      ChooseAbove(n - 1, n);
    }
  }

  /** Fermat's little theorem: x^(p-1) ≡ 1 (mod p) when p does not divide x. */
  lemma Fermat(p: nat, x: nat)
    requires IsPrime(p) && x % p != 0
    ensures Pow(x, p - 1) % p == 1
  {
    FermatPow(p, x);
    assert Pow(x, p) == x * Pow(x, p - 1);
    // x·(x^(p-1) - 1) = x^p - x ≡ 0 (mod p).
    assert (x * (Pow(x, p - 1) - 1)) % p == 0 by {
      assert x * (Pow(x, p - 1) - 1) == Pow(x, p) - x;
      assert Pow(x, p) == p * (Pow(x, p) / p) + x % p && x == p * (x / p) + x % p;
      assert Pow(x, p) - x == p * (Pow(x, p) / p - x / p);
      DividesIff(Pow(x, p) - x, p, Pow(x, p) / p - x / p);
    }
    Euclid(p, x, Pow(x, p - 1) - 1);
    assert Pow(x, p - 1) == (Pow(x, p - 1) - 1) + 1;
    ModAdd(Pow(x, p - 1) - 1, 1, p);
    DivModUnique(1, p, 0, 1);
  }

  // ---------------------------------------------------------------- products of primes

  /** `functools.reduce(operator.mul, xs)` for a non-empty list, and 1 for the empty one. */
  function Product(xs: seq<int>): int {
    if xs == [] then 1 else xs[0] * Product(xs[1..])
  }

  /** The product of every entry but the k-th. */
  function ProductExcept(xs: seq<int>, k: nat): int
    requires k < |xs|
  {
    Product(xs[..k] + xs[k + 1..])
  }

  predicate DistinctPrimes(xs: seq<int>) {
    (forall k :: 0 <= k < |xs| ==> IsPrime(xs[k]))
    && forall j, k :: 0 <= j < k < |xs| ==> xs[j] != xs[k]
  }

  lemma {:induction false} ProductPositive(xs: seq<int>)
    requires forall k :: 0 <= k < |xs| ==> xs[k] > 0
    ensures Product(xs) > 0
  {
    if xs != [] {
      ProductPositive(xs[1..]);
      MulAtLeast(Product(xs[1..]), xs[0]);
    }
  }

  lemma {:induction false} ProductAppend(xs: seq<int>, ys: seq<int>)
    ensures Product(xs + ys) == Product(xs) * Product(ys)
  {
    if xs != [] {
      assert (xs + ys)[1..] == xs[1..] + ys;
      ProductAppend(xs[1..], ys);
    } else {
      assert xs + ys == ys;
    }
  }

  lemma ProductCons(c: int, b: seq<int>)
    ensures Product([c] + b) == c * Product(b)
  {
    assert ([c] + b)[1..] == b;
  }

  lemma MulRearrange(pa: int, c: int, pb: int)
    ensures pa * (c * pb) == c * (pa * pb)
  {
  }

  /** Taking one factor out of the product. */
  lemma ProductSplit(xs: seq<int>, k: nat)
    requires k < |xs|
    ensures Product(xs) == xs[k] * ProductExcept(xs, k)
  {
    var a, c, b := xs[..k], xs[k], xs[k + 1..];
    assert xs == a + ([c] + b);
    ProductAppend(a, [c] + b);
    ProductCons(c, b);
    ProductAppend(a, b);
    MulRearrange(Product(a), c, Product(b));
  }

  /** Every positive entry divides the product of all the others it is among. */
  lemma ProductExceptDivisible(xs: seq<int>, k: nat, j: nat)
    requires k < |xs| && j < |xs| && j != k && xs[j] > 0
    ensures ProductExcept(xs, k) % xs[j] == 0
  {
    var rest := xs[..k] + xs[k + 1..];
    var jj := if j < k then j else j - 1;
    assert rest[jj] == xs[j];
    ProductSplit(rest, jj);
    DividesIff(Product(rest), xs[j], ProductExcept(rest, jj));
  }

  /** A prime that is none of the primes in `xs` does not divide their product. */
  lemma {:induction false} PrimeNotDividingProduct(p: int, xs: seq<int>)
    requires IsPrime(p) && (forall k :: 0 <= k < |xs| ==> IsPrime(xs[k]) && xs[k] != p)
    ensures Product(xs) % p != 0
  {
    if xs == [] {
      DivModUnique(1, p, 0, 1);
    } else {
      PrimeNotDividingProduct(p, xs[1..]);
      assert xs[0] % p != 0 by {
        if p > xs[0] {
          DivModUnique(xs[0], p, 0, xs[0]);
        }
      }
      if (xs[0] * Product(xs[1..])) % p == 0 {
        Euclid(p, xs[0], Product(xs[1..]));
      }
    }
  }

  /** The other factors of a product of distinct primes leave a non-multiple of the k-th. */
  lemma ProductExceptNotDivisible(xs: seq<int>, k: nat)
    requires k < |xs| && DistinctPrimes(xs)
    ensures ProductExcept(xs, k) % xs[k] != 0
  {
    var rest := xs[..k] + xs[k + 1..];
    forall i | 0 <= i < |rest| ensures IsPrime(rest[i]) && rest[i] != xs[k] {
      if i < k {
        assert rest[i] == xs[i];
      } else {
        assert rest[i] == xs[i + 1];
      }
    }
    PrimeNotDividingProduct(xs[k], rest);
  }

  /** A number divisible by each of some distinct primes is divisible by their product. */
  lemma {:induction false} ProductDivides(xs: seq<int>, d: int)
    requires DistinctPrimes(xs) && forall k :: 0 <= k < |xs| ==> d % xs[k] == 0
    ensures Product(xs) > 0 && d % Product(xs) == 0
  {
    forall k | 0 <= k < |xs| ensures xs[k] > 0 {
      assert IsPrime(xs[k]);
    }
    ProductPositive(xs);
    if xs == [] {
      DivModUnique(d, 1, d, 0);
    } else {
      var p, rest := xs[0], xs[1..];
      assert DistinctPrimes(rest) && forall k :: 0 <= k < |rest| ==> d % rest[k] == 0 by {
        assert forall k :: 0 <= k < |rest| ==> rest[k] == xs[k + 1];
      }
      ProductDivides(rest, d);
      var r := Product(rest);
      assert r % p != 0 by {
        forall k | 0 <= k < |rest| ensures IsPrime(rest[k]) && rest[k] != p {
          assert rest[k] == xs[k + 1];
        }
        PrimeNotDividingProduct(p, rest);
      }
      ProductStep(p, r, d);
    }
  }

  /** If the prime p and r both divide d and p does not divide r, then p·r divides d. */
  lemma ProductStep(p: int, r: int, d: int)
    requires IsPrime(p) && r > 0 && d % r == 0 && d % p == 0 && r % p != 0
    ensures d % (p * r) == 0
  {
    var q := d / r;
    assert d == r * q;
    Euclid(p, r, q);
    var q2 := q / p;
    assert q == p * q2;
    assert d == (p * r) * q2;
    MulAtLeast(p, r);
    DividesIff(d, p * r, q2);
  }

  // ---------------------------------------------------------------- trial division

  /** No d with lo <= d < hi divides n, checked one candidate at a time. */
  predicate NoDivisorIn(n: int, lo: int, hi: int)
    decreases hi - lo
  {
    lo >= hi || (lo > 0 && n % lo != 0 && NoDivisorIn(n, lo + 1, hi))
  }

  lemma {:induction false} NoDivisorInRange(n: int, lo: int, hi: int)
    requires NoDivisorIn(n, lo, hi)
    ensures forall d :: lo <= d < hi ==> d > 0 && n % d != 0
    decreases hi - lo
  {
    if lo < hi {
      NoDivisorInRange(n, lo + 1, hi);
    }
  }

  /** Two adjacent ranges without a divisor make one. */
  lemma {:induction false} NoDivisorJoin(n: int, lo: int, mid: int, hi: int)
    requires lo <= mid <= hi && NoDivisorIn(n, lo, mid) && NoDivisorIn(n, mid, hi)
    ensures NoDivisorIn(n, lo, hi)
    decreases mid - lo
  {
    if lo < mid {
      NoDivisorJoin(n, lo + 1, mid, hi);
    }
  }

  /** Trial division up to a bound whose square exceeds `n` proves `n` prime. */
  lemma PrimeByTrial(n: int, r: nat)
    requires n >= 2 && r * r > n && NoDivisorIn(n, 2, r)
    ensures IsPrime(n)
  {
    NoDivisorInRange(n, 2, r);
    forall d | 1 < d < n ensures n % d != 0 {
      if d >= r {
        CoFactor(n, d, r);
      }
    }
  }

  /** A divisor of n at least r, with r·r > n, would come with a co-divisor below r. */
  lemma CoFactor(n: int, d: int, r: nat)
    requires 1 < d < n && d >= r && r * r > n
    requires forall d' :: 2 <= d' < r ==> d' > 0 && n % d' != 0
    ensures n % d != 0
  {
    if n % d == 0 {
      var e := n / d;
      assert n == d * e;
      CoFactorBounds(n, d, e, r);
      DividesIff(n, e, d);
    }
  }

  lemma CoFactorBounds(n: int, d: int, e: int, r: nat)
    requires n == d * e && 1 < d < n && d >= r && r * r > n
    ensures 1 < e < r
  {
    if e <= 1 {
      MulMonotone(d, e, 1);
    }
    if e >= r {
      MulMonotone(d, r, e);
      MulMonotone(r, r, d);
    }
  }

  lemma MulMonotone(f: int, a: int, b: int)
    requires f >= 0 && a <= b
    ensures f * a <= f * b
  {
    MulNonNeg(f, b - a);
  }
}
