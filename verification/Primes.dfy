/** The incremental sieve for prime numbers. */
module Primes {
  function Times(a: nat, b: nat): nat { a * b }

  ghost predicate Divides(d: nat, n: nat) { exists k: nat :: Times(d, k) == n }

  ghost predicate IsPrime(n: nat) { n >= 2 && forall d: nat :: 1 < d < n ==> !Divides(d, n) }

  predicate Odd(n: nat) { n % 2 == 1 }

  ghost predicate OddPrime(p: nat) { Odd(p) && IsPrime(p) }

  // ----- divisibility -----

  lemma Dividing(d: nat, k: nat)
    ensures Divides(d, d * k) && Divides(k, d * k)
  {
    assert Times(d, k) == d * k && Times(k, d) == d * k;
  }

  lemma Quotient(d: nat, n: nat) returns (k: nat)
    requires Divides(d, n)
    ensures n == d * k
  {
    k :| Times(d, k) == n;
  }

  lemma Distribute(d: nat, k: nat, l: nat)
    ensures d * k - d * l == d * (k - l)
    ensures d > 0 && d * k >= d * l ==> k >= l
    ensures d > 0 && k > l ==> d * k > d * l
  {
    if d > 0 {
      Monotone(d, k, l);
      Monotone(d, l, k);
    }
  }

  lemma Monotone(d: nat, k: nat, l: nat)
    requires d > 0
    ensures k < l ==> d * k < d * l
  {}

  lemma DividesTrans(a: nat, b: nat, c: nat)
    requires Divides(a, b) && Divides(b, c)
    ensures Divides(a, c)
  {
    var k := Quotient(a, b);
    var l := Quotient(b, c);
    assert c == a * (k * l);
    Dividing(a, k * l);
  }

  lemma DividesDifference(d: nat, a: nat, b: nat)
    requires d > 0 && Divides(d, a) && Divides(d, b) && a >= b
    ensures Divides(d, a - b)
  {
    hide Divides;
    var k := Quotient(d, a);
    var l := Quotient(d, b);
    Distribute(d, k, l);
    Dividing(d, k - l);
  }

  lemma DividesSum(d: nat, a: nat, b: nat)
    requires Divides(d, a) && Divides(d, b)
    ensures Divides(d, a + b)
  {
    var k := Quotient(d, a);
    var l := Quotient(d, b);
    assert a + b == d * (k + l);
    Dividing(d, k + l);
  }

  lemma DividesProduct(d: nat, a: nat, b: nat)
    requires Divides(d, a)
    ensures Divides(d, a * b)
  {
    Dividing(a, b);
    DividesTrans(d, a, a * b);
  }

  lemma DivisorIsSmall(d: nat, n: nat)
    requires Divides(d, n) && n > 0
    ensures 0 < d <= n
  {
    var k := Quotient(d, n);
    PositiveFactors(d, k);
    Monotone(d, 1, k);
  }

  lemma PositiveFactors(a: nat, b: nat)
    requires a * b > 0
    ensures a > 0 && b > 0
  {}

  lemma EvenProduct(a: nat, b: nat)
    requires !Odd(a)
    ensures !Odd(a * b)
  {
    assert a * b == 2 * ((a / 2) * b);
  }

  /** A factor of an odd number is odd. */
  lemma OddFactors(a: nat, b: nat)
    requires Odd(a * b)
    ensures Odd(a) && Odd(b)
  {
    if !Odd(a) {
      EvenProduct(a, b);
    }
    assert a * b == b * a;
    if !Odd(b) {
      EvenProduct(b, a);
    }
  }

  /** The least divisor above 1 is prime, and its square is no larger than a composite number it divides. */
  lemma LeastFactor(n: nat) returns (p: nat)
    requires n >= 2
    ensures IsPrime(p) && Divides(p, n) && (!IsPrime(n) ==> p < n && p * p <= n)
  {
    p := 2;
    Dividing(n, 1);
    while !Divides(p, n)
      invariant 2 <= p <= n
      invariant forall e: nat :: 1 < e < p ==> !Divides(e, n)
      decreases n - p
    {
      p := p + 1;
    }
    forall e: nat | 1 < e < p ensures !Divides(e, p) {
      if Divides(e, p) {
        DividesTrans(e, p, n);
      }
    }
    if !IsPrime(n) {
      var d: nat :| 1 < d < n && Divides(d, n);
      SquareFits(p, n);
    }
  }

  lemma SquareFits(p: nat, n: nat)
    requires 2 <= p < n && Divides(p, n)
    requires forall e: nat :: 1 < e < p ==> !Divides(e, n)
    ensures p * p <= n
  {
    var k := Quotient(p, n);
    Dividing(p, k);
    assert k != 0 && k != 1;
    assert p <= k;
    Distribute(p, k, p);
    Monotone(p, k, p);
  }

  /** Euclid's lemma, for a factor below the prime. */
  lemma {:induction false} EuclidBelow(p: nat, r: nat, b: nat)
    requires IsPrime(p) && 0 < r < p && Divides(p, r * b)
    ensures Divides(p, b)
    decreases r
  {
    hide Divides;
    if r > 1 {
      var s := p % r;
      var k := p / r;
      assert p == r * k + s;
      if s == 0 {
        Dividing(r, k);
      }
      assert s != 0;
      Dividing(p, b);
      DividesProduct(p, r * b, k);
      assert (r * b) * k == (r * k) * b;
      assert p * b == (r * k) * b + s * b;
      DividesDifference(p, p * b, (r * k) * b);
      EuclidBelow(p, s, b);
    }
  }

  /** Euclid's lemma: a prime that divides a product divides one of its factors. */
  lemma Euclid(p: nat, a: nat, b: nat)
    requires IsPrime(p) && Divides(p, a * b)
    ensures Divides(p, a) || Divides(p, b)
  {
    hide Divides;
    var r := a % p;
    var k := a / p;
    assert a == p * k + r;
    if r == 0 {
      Dividing(p, k);
    } else {
      Dividing(p, k * b);
      assert p * (k * b) == (p * k) * b;
      assert a * b == (p * k) * b + r * b;
      DividesDifference(p, a * b, (p * k) * b);
      EuclidBelow(p, r, b);
    }
  }

  function Factorial(n: nat): nat { if n == 0 then 1 else n * Factorial(n - 1) }

  lemma {:induction false} DividesFactorial(d: nat, n: nat)
    requires 0 < d <= n
    ensures Divides(d, Factorial(n))
  {
    if d == n {
      Dividing(n, Factorial(n - 1));
    } else {
      DividesFactorial(d, n - 1);
      DividesProduct(d, Factorial(n - 1), n);
    }
  }

  lemma {:induction false} FactorialPositive(n: nat)
    ensures Factorial(n) >= 1
  {
    if n > 0 {
      FactorialPositive(n - 1);
    }
  }

  /** There is always a larger prime. */
  lemma LargerPrime(n: nat) returns (p: nat)
    ensures p > n && IsPrime(p)
  {
    FactorialPositive(n);
    p := LeastFactor(Factorial(n) + 1);
    if p <= n {
      DividesFactorial(p, n);
      DividesDifference(p, Factorial(n) + 1, Factorial(n));
      DivisorIsSmall(p, 1);
    }
  }

  // ----- the sieve -----

  /** The keys of the dictionary are odd numbers from `q` on; each stands for one odd prime below `q` that divides it,
      kept as twice that prime. */
  ghost predicate KeyOk(d: map<nat, nat>, q: nat, x: nat)
    requires x in d
  {
    var p := d[x] / 2;
    q <= x && Odd(x) && d[x] == 2 * p && OddPrime(p) && p < q && Divides(p, x) && p * p <= x
  }

  /** `x` is where the multiples of `p` have got to: those before it that are still to come are keys for other
      primes. */
  ghost predicate Cursor(d: map<nat, nat>, q: nat, p: nat, x: nat) {
    x in d && d[x] == 2 * p &&
    forall m: nat :: Odd(m) && Divides(p, m) && p * p <= m && q <= m < x ==> m in d
  }

  ghost predicate SieveOk(d: map<nat, nat>, q: nat) {
    && Odd(q) && q >= 3
    && (forall x :: x in d ==> KeyOk(d, q, x))
    && (forall p: nat :: OddPrime(p) && p < q ==> exists x: nat :: Cursor(d, q, p, x))
  }

  lemma InitialSieve()
    ensures SieveOk(map[], 3)
  {
    Dividing(2, 1);
  }

  /** The invariant does its work: when the counter reaches a number, it is a key exactly when it is composite. */
  lemma KeyIffComposite(d: map<nat, nat>, q: nat)
    requires SieveOk(d, q)
    ensures q in d <==> !IsPrime(q)
  {
    if !IsPrime(q) {
      CompositeIsKey(d, q);
    }
    if q in d {
      assert KeyOk(d, q, q);
    }
  }

  lemma CompositeIsKey(d: map<nat, nat>, q: nat)
    requires SieveOk(d, q) && !IsPrime(q)
    ensures q in d
  {
    var p := LeastFactor(q);
    var k := Quotient(p, q);
    OddFactors(p, k);
    assert OddPrime(p) && p < q;
    var x: nat :| Cursor(d, q, p, x);
    assert KeyOk(d, q, x);
  }

  lemma SquareIsNew(d: map<nat, nat>, q: nat)
    requires SieveOk(d, q) && IsPrime(q)
    ensures q * q !in d
  {
    if q * q in d {
      assert KeyOk(d, q, q * q);
      Euclid(d[q * q] / 2, q, q);
    }
  }

  lemma OddSquare(q: nat)
    requires Odd(q)
    ensures Odd(q * q) && q * q >= q
  {
    assert q * q == 2 * ((q / 2) * q) + q;
  }

  lemma CursorStays(d: map<nat, nat>, q: nat, p: nat, x: nat, d': map<nat, nat>, q': nat)
    requires Cursor(d, q, p, x) && x in d' && d'[x] == d[x] && q' == q + 2
    requires forall m :: m in d && m > q ==> m in d'
    ensures Cursor(d', q', p, x)
  {}

  lemma OddBelow(p: nat, q: nat)
    requires Odd(p) && Odd(q) && p < q + 2
    ensures p <= q
  {}

  lemma KeyStays(d: map<nat, nat>, q: nat, x: nat, d': map<nat, nat>, q': nat)
    requires x in d && KeyOk(d, q, x) && x != q && Odd(q)
    requires x in d' && d'[x] == d[x] && q' == q + 2
    ensures KeyOk(d', q', x)
  {}

  lemma NewKey(q: nat, d': map<nat, nat>, q': nat)
    requires OddPrime(q) && q * q in d' && d'[q * q] == 2 * q && q' == q + 2 && q >= 3
    ensures KeyOk(d', q', q * q) && Cursor(d', q', q, q * q)
  {
    OddSquare(q);
    Dividing(q, q);
    Monotone(q, 2, q);
  }

  /** A prime: its own multiples begin at its square. */
  lemma PrimeStep(d: map<nat, nat>, q: nat)
    requires SieveOk(d, q) && q !in d
    ensures SieveOk(d[q * q := 2 * q], q + 2) && q * q !in d
  {
    hide Divides, IsPrime, KeyOk, Cursor;
    var d', q' := d[q * q := 2 * q], q + 2;
    KeyIffComposite(d, q);
    SquareIsNew(d, q);
    NewKey(q, d', q');
    forall x | x in d' ensures KeyOk(d', q', x) {
      if x in d {
        KeyStays(d, q, x, d', q');
      }
    }
    forall p: nat | OddPrime(p) && p < q' ensures exists x: nat :: Cursor(d', q', p, x) {
      OddBelow(p, q);
      if p < q {
        var x: nat :| Cursor(d, q, p, x);
        CursorIsKey(d, q, p, x);
        CursorStays(d, q, p, x, d', q');
      }
    }
  }

  lemma CursorIsKey(d: map<nat, nat>, q: nat, p: nat, x: nat)
    requires Cursor(d, q, p, x)
    ensures x in d && d[x] == 2 * p
  {}

  /** The odd multiples of `p` after `q` are `2 * p` apart. */
  lemma OddMultiples(p: nat, q: nat, m: nat) returns (j: nat)
    requires Odd(p) && Odd(q) && Odd(m) && Divides(p, q) && Divides(p, m) && m > q
    ensures j > 0 && m == q + 2 * p * j
  {
    DividesDifference(p, m, q);
    var k := Quotient(p, m - q);
    if Odd(k) {
      OddProduct(p, k);
    }
    j := k / 2;
    assert k == 2 * j;
    assert m == q + 2 * p * j;
    PositiveFactors(p, k);
  }

  lemma OddProduct(a: nat, b: nat)
    requires Odd(a) && Odd(b)
    ensures Odd(a * b)
  {
    assert a * b == 2 * ((a / 2) * b) + b;
  }

  /** A composite: the cursor that stood on it moves to the next odd multiple of its prime that no other cursor
      stands on. */
  lemma CompositeStep(d: map<nat, nat>, q: nat, x: nat, n: nat)
    requires SieveOk(d, q) && q in d && n > 0 && x == q + d[q] * n && x !in d
    requires forall j :: 0 < j < n ==> q + Times(d[q], j) in d
    ensures SieveOk((d - {q})[x := d[q]], q + 2)
  {
    hide Divides, IsPrime, KeyOk, Cursor, Times;
    var d', q' := (d - {q})[x := d[q]], q + 2;
    var p := d[q] / 2;
    KeyIffComposite(d, q);
    assert KeyOk(d, q, q);
    KeyHasPrime(d, q, q);
    MovedKey(d, q, x, n, p);
    forall y | y in d' ensures KeyOk(d', q', y) {
      if y != x {
        KeyStays(d, q, y, d', q');
      }
    }
    forall r: nat | OddPrime(r) && r < q' ensures exists y: nat :: Cursor(d', q', r, y) {
      OddBelow(r, q);
      assert r != q;
      var y: nat :| Cursor(d, q, r, y);
      CursorIsKey(d, q, r, y);
      if r == p {
        assert Cursor(d', q', p, x);
      } else {
        CursorStays(d, q, r, y, d', q');
      }
    }
  }

  lemma KeyHasPrime(d: map<nat, nat>, q: nat, x: nat)
    requires x in d && KeyOk(d, q, x)
    ensures
      var p := d[x] / 2;
      q <= x && Odd(x) && d[x] == 2 * p && OddPrime(p) && p < q && Divides(p, x)
  {}

  /** The cursor of the smaller prime stood on the number, so the number is not below the square. */
  lemma MovedKey(d: map<nat, nat>, q: nat, x: nat, n: nat, p: nat)
    requires SieveOk(d, q) && q in d && KeyOk(d, q, q) && p == d[q] / 2
    requires n > 0 && x == q + d[q] * n && x !in d
    requires forall j :: 0 < j < n ==> q + Times(d[q], j) in d
    ensures
      var d', q' := (d - {q})[x := d[q]], q + 2;
      KeyOk(d', q', x) && Cursor(d', q', p, x)
  {
    hide Divides, IsPrime;
    Advanced(q, p, n);
    assert OddPrime(p) && p < q;
    MovedCursor(d, q, x, n, p);
  }

  lemma Advanced(q: nat, p: nat, n: nat)
    requires Odd(q) && Divides(p, q) && n > 0 && p > 0
    ensures Odd(q + 2 * p * n) && Divides(p, q + 2 * p * n) && q + 2 * p * n >= q + 2
  {
    hide Divides;
    Dividing(p, 2 * n);
    assert p * (2 * n) == 2 * p * n;
    assert 2 * p * n == 2 * (p * n);
    DividesSum(p, q, 2 * p * n);
    Monotone(p, 0, n);
  }

  lemma MovedCursor(d: map<nat, nat>, q: nat, x: nat, n: nat, p: nat)
    requires Odd(q) && Odd(p) && q in d && d[q] == 2 * p && Divides(p, q) && p > 0
    requires x == q + 2 * p * n && x !in d && p * p <= q && q <= x
    requires forall j :: 0 < j < n ==> q + Times(d[q], j) in d
    ensures Cursor((d - {q})[x := d[q]], q + 2, p, x)
  {
    var d' := (d - {q})[x := d[q]];
    forall m: nat | Odd(m) && Divides(p, m) && p * p <= m && q + 2 <= m < x ensures m in d' {
      var j := OddMultiples(p, q, m);
      Distribute(2 * p, j, n);
      assert j < n;
      assert q + Times(d[q], j) == m;
    }
  }

  /** The primes below a bound, in increasing order. */
  ghost predicate PrimesBelow(s: seq<nat>, bound: nat) {
    && (forall n: nat :: n in s <==> IsPrime(n) && n < bound)
    && (forall i, j :: 0 <= i < j < |s| ==> s[i] < s[j])
  }

  lemma YieldedOneMore(s: seq<nat>, p: nat)
    requires PrimesBelow(s, p) && OddPrime(p)
    ensures PrimesBelow(s + [p], p + 2)
    ensures forall n :: n in s ==> n < p
  {
    hide IsPrime;
    FirstPrimes();
    EvenIsNoPrime(p + 1);
    forall i, j | 0 <= i < j < |s + [p]| ensures (s + [p])[i] < (s + [p])[j] {
      assert s[i] in s;
    }
    forall n: nat ensures n in s + [p] <==> IsPrime(n) && n < p + 2 {
      assert n != p + 1 || !IsPrime(n);
    }
  }

  lemma NothingYielded(s: seq<nat>, q: nat)
    requires PrimesBelow(s, q) && !IsPrime(q) && Odd(q) && q >= 3
    ensures PrimesBelow(s, q + 2)
  {
    hide IsPrime;
    EvenIsNoPrime(q + 1);
  }

  class PrimeGen {
    var d: map<nat, nat>
    var q: nat
    var started: bool
    ghost var top: nat
    /** What has been yielded. */
    ghost var yielded: seq<nat>

    ghost predicate Valid()
      reads this
    {
      && SieveOk(d, q)
      && (forall x :: x in d ==> x <= top)
      && (!started ==> q == 3 && yielded == [])
      && (started ==> PrimesBelow(yielded, q))
    }

    constructor ()
      ensures Valid() && yielded == []
    {
      d, q, started, top, yielded := map[], 3, false, 0, [];
      new;
      InitialSieve();
    }

    /** Every prime, each once, in increasing order, and nothing else: the number yielded is the least prime above
        all that were yielded before. */
    method Next() returns (p: nat)
      requires Valid()
      modifies this
      ensures Valid() && yielded == old(yielded) + [p] && IsPrime(p)
      ensures forall n :: n in old(yielded) ==> n < p
      ensures forall n: nat :: IsPrime(n) && n < p ==> n in old(yielded)
    {
      hide SieveOk, IsPrime;
      if !started {
        started, p := true, 2;
        yielded := [2];
        FirstPrimes();
        return;
      }
      ghost var next := LargerPrime(q);
      while q in d
        invariant Valid() && started && yielded == old(yielded) && q <= next
        decreases next - q
      {
        StillBelow(d, q, next);
        SkipComposite();
      }
      p := q;
      SieveCounter(d, q);
      KeyIffComposite(d, q);
      PrimeStep(d, q);
      top := if q * q > top then q * q else top;
      d := d[q * q := 2 * q];
      q := q + 2;
      YieldedOneMore(yielded, p);
      yielded := yielded + [p];
    }

    method SkipComposite()
      requires Valid() && started && q in d
      modifies this
      ensures Valid() && started && yielded == old(yielded) && q == old(q) + 2
    {
      hide SieveOk, IsPrime, PrimesBelow;
      SieveCounter(d, q);
      KeyIffComposite(d, q);
      NothingYielded(yielded, q);
      var p := d[q];
      ghost var n := 1;
      var x := p + q;
      KeyIsEven(d, q);
      while x in d - {q}
        invariant unchanged(this)
        invariant n > 0 && x == q + p * n && p > 0 && x > q
        invariant forall j :: 0 < j < n ==> q + Times(p, j) in d
        decreases top - x
      {
        assert q + Times(p, n) == x;
        OneMore(p, n);
        x := x + p;
        n := n + 1;
      }
      CompositeStep(d, q, x, n);
      top := if x > top then x else top;
      d := (d - {q})[x := p];
      q := q + 2;
    }
  }

  lemma FirstPrimes()
    ensures IsPrime(2) && forall n: nat :: IsPrime(n) && n < 3 ==> n == 2
  {}

  lemma SieveCounter(d: map<nat, nat>, q: nat)
    requires SieveOk(d, q)
    ensures Odd(q) && q >= 3
  {}

  lemma OneMore(p: nat, n: nat)
    ensures p * n + p == p * (n + 1)
  {}

  lemma EvenIsNoPrime(n: nat)
    requires n > 2 && !Odd(n)
    ensures !IsPrime(n)
  {
    Dividing(2, n / 2);
  }

  lemma KeyIsEven(d: map<nat, nat>, q: nat)
    requires SieveOk(d, q) && q in d
    ensures d[q] > 0
  {
    assert KeyOk(d, q, q);
  }

  lemma StillBelow(d: map<nat, nat>, q: nat, next: nat)
    requires SieveOk(d, q) && q in d && q <= next && IsPrime(next)
    ensures q + 2 <= next
  {
    hide SieveOk, IsPrime;
    SieveCounter(d, q);
    KeyIffComposite(d, q);
    EvenIsNoPrime(q + 1);
  }
}
