/** Triangular ("quadratic") probing over a table whose size is a power of two
    (src/khash.h).  The number theory the hash table rests on: the first 2^m
    probes visit all 2^m buckets, and the probe sequence is back at its start
    for the first time only after 2^(m+1) - 1 steps. */
module Probing {

  function Pow2(m: nat): (p: nat)
    ensures p >= 1
  {
    if m == 0 then 1 else 2 * Pow2(m - 1)
  }

  lemma {:induction false} PowMono(a: nat, b: nat)
    requires a <= b
    ensures Pow2(a) <= Pow2(b)
  {
    if a < b {
      PowMono(a, b - 1);
    }
  }

  /** The distance from the start after n steps: 1 + 2 + ... + n. */
  function Tri(n: nat): nat
  {
    if n == 0 then 0 else Tri(n - 1) + n
  }

  lemma {:induction false} TriClosed(n: nat)
    ensures 2 * Tri(n) == n * (n + 1)
  {
    if n > 0 {
      TriClosed(n - 1);
      assert (n - 1) * n + 2 * n == n * (n + 1);
    }
  }

  /** The bucket looked at after n steps by a search for hash value h. */
  function Probe(h: nat, n: nat, size: nat): (i: nat)
    requires size > 0
    ensures i < size
  {
    (h + Tri(n)) % size
  }

  /** One turn of the search loop, i = (i + step) & mask; size is a power of two. */
  function Next(i: nat, step: nat, size: nat): (j: nat)
    requires size > 0
    ensures j < size
  {
    (i + step) % size
  }

  /** The search loops compute the probe sequence. */
  lemma ProbeStep(h: nat, n: nat, size: nat)
    requires size > 0
    ensures Probe(h, n + 1, size) == Next(Probe(h, n, size), n + 1, size)
    ensures Probe(h, 0, size) == h % size
  {
    ModAbsorb(h + Tri(n), n + 1, size);
  }

  lemma ModAbsorb(x: nat, y: nat, size: nat)
    requires size > 0
    ensures (x + y) % size == (x % size + y) % size
  {
    var q := x / size;
    assert x + y == (x % size + y) + q * size;
    ModShift(x % size + y, q, size);
  }

  lemma {:induction false} ModShift(a: nat, q: nat, size: nat)
    requires size > 0
    ensures (a + q * size) % size == a % size
  {
    if q == 0 {
    } else {
      ModShift(a, q - 1, size);
      var b := a + (q - 1) * size;
      assert a + q * size == b + size by { MulStep(q, size); }
      ModOnce(b, size);
    }
  }

  lemma MulStep(q: nat, size: nat)
    requires q > 0
    ensures q * size == (q - 1) * size + size
  {
  }

  lemma ModOnce(b: nat, size: nat)
    requires size > 0
    ensures (b + size) % size == b % size
  {
    var q, r := b / size, b % size;
    assert b == q * size + r;
    assert b + size == (q + 1) * size + r by { MulStep(q + 1, size); }
    DivModUnique(b + size, q + 1, r, size);
  }

  lemma DivModUnique(x: nat, q: nat, r: nat, size: nat)
    requires size > 0 && r < size && x == q * size + r
    ensures x / size == q && x % size == r
  {
    var q', r' := x / size, x % size;
    assert x == q' * size + r';
    assert (q' - q) * size == r - r';
    SmallProductZero(q' - q, size);
  }

  lemma SmallProductZero(a: int, n: int)
    requires n > 0 && -n < a * n < n
    ensures a == 0
  {
    MulLowerBound(a, n);
    MulLowerBound(-a, n);
  }

  lemma MulLowerBound(a: int, n: int)
    requires n > 0
    ensures a >= 1 ==> a * n >= n
  {
  }

  // ----- a power of two that divides a product with one odd factor -----

  predicate Divides(d: nat, n: nat) { d > 0 && n % d == 0 }

  lemma DividesWitness(d: nat, n: nat)
    requires Divides(d, n)
    ensures n == d * (n / d)
  {
  }

  lemma MultipleDivides(d: nat, k: nat)
    requires d > 0
    ensures Divides(d, d * k)
  {
    ModShift(0, k, d);
    assert k * d == d * k;
  }

  /** 2^m | x*y with y odd implies 2^m | x. */
  lemma {:induction false} OddFactor(m: nat, x: nat, y: nat)
    requires y % 2 == 1
    requires Divides(Pow2(m), x * y)
    ensures Divides(Pow2(m), x)
  {
    if m == 0 {
    } else {
      var p := Pow2(m - 1);
      var k := (x * y) / Pow2(m);
      DividesWitness(Pow2(m), x * y);
      assert x * y == 2 * (p * k);
      // x is even, because y is odd
      var z := x / 2;
      if x % 2 == 1 {
        OddTimesOdd(x, y);
        assert false;
      }
      assert x == 2 * z;
      assert 2 * (z * y) == 2 * (p * k);
      assert z * y == p * k;
      MultipleDivides(p, k);
      OddFactor(m - 1, z, y);
      DividesWitness(p, z);
      assert x == Pow2(m) * (z / p);
      MultipleDivides(Pow2(m), z / p);
    }
  }

  lemma OddTimesOdd(x: nat, y: nat)
    requires x % 2 == 1 && y % 2 == 1
    ensures (x * y) % 2 == 1
  {
    var a, b := x / 2, y / 2;
    assert x * y == 2 * (2 * a * b + a + b) + 1;
  }

  lemma SmallMultiple(d: nat, x: nat)
    requires Divides(d, x) && x < d
    ensures x == 0
  {
  }

  lemma TriFactors(i: nat, j: nat, bound: nat) returns (u: nat, v: nat)
    requires i < j && i + j + 1 < bound
    ensures Tri(i) <= Tri(j) && 2 * (Tri(j) - Tri(i)) == u * v
    ensures 0 < u < bound && 0 < v < bound && u % 2 != v % 2
  {
    TriMono(i, j);
    TriClosed(i);
    TriClosed(j);
    u, v := j - i, i + j + 1;
    FactorDifference(i, j);
    assert u + v == 2 * j + 1;
  }

  lemma FactorDifference(i: int, j: int)
    ensures j * (j + 1) - i * (i + 1) == (j - i) * (i + j + 1)
  {
  }

  /** 2^m divides a product u * v below in both factors, one of them odd: no. */
  lemma NoSmallProduct(m: nat, u: nat, v: nat)
    requires 0 < u < Pow2(m) && 0 < v < Pow2(m)
    requires u % 2 != v % 2
    ensures !Divides(Pow2(m), u * v)
  {
    if v % 2 == 1 {
      NoSmallOddProduct(m, u, v);
    } else {
      assert u * v == v * u;
      NoSmallOddProduct(m, v, u);
    }
  }

  lemma NoSmallOddProduct(m: nat, u: nat, v: nat)
    requires 0 < u < Pow2(m) && v % 2 == 1
    ensures !Divides(Pow2(m), u * v)
  {
    if Divides(Pow2(m), u * v) {
      OddFactor(m, u, v);
      SmallMultiple(Pow2(m), u);
    }
  }

  lemma TriDistinct(m: nat, i: nat, j: nat)
    requires i < j < Pow2(m)
    ensures Tri(i) <= Tri(j) && !Divides(Pow2(m), Tri(j) - Tri(i))
  {
    TriMono(i, j);
    var u, v := TriFactors(i, j, 2 * Pow2(m));
    if Divides(Pow2(m), Tri(j) - Tri(i)) {
      DoubleDivides(m, Tri(j) - Tri(i));
      NoSmallProduct(m + 1, u, v);
    }
  }

  /** Two different steps below 2^m look at different buckets. */
  lemma ProbesDistinct(m: nat, h: nat, i: nat, j: nat)
    requires i < j < Pow2(m)
    ensures Probe(h, i, Pow2(m)) != Probe(h, j, Pow2(m))
  {
    TriDistinct(m, i, j);
    if Probe(h, i, Pow2(m)) == Probe(h, j, Pow2(m)) {
      EqualModDivides(h + Tri(i), h + Tri(j), Pow2(m));
    }
  }

  lemma DoubleDivides(m: nat, d: nat)
    requires Divides(Pow2(m), d)
    ensures Divides(Pow2(m + 1), 2 * d)
  {
    DividesWitness(Pow2(m), d);
    assert 2 * d == Pow2(m + 1) * (d / Pow2(m));
    MultipleDivides(Pow2(m + 1), d / Pow2(m));
  }

  lemma TriMono(i: nat, j: nat)
    requires i <= j
    ensures Tri(i) <= Tri(j)
  {
    if i < j {
      TriMono(i, j - 1);
    }
  }

  lemma EqualModDivides(x: nat, y: nat, n: nat)
    requires n > 0 && x <= y
    requires x % n == y % n
    ensures Divides(n, y - x)
  {
    var p, q := x / n, y / n;
    assert x == n * p + x % n && y == n * q + y % n;
    ProductDifference(n, p, q);
    if q < p {
      NegativeProduct(q - p, n);
    } else {
      MultipleDivides(n, q - p);
    }
  }

  lemma ProductDifference(n: nat, p: nat, q: nat)
    ensures n * q - n * p == n * (q - p) == (q - p) * n
  {
  }

  lemma NegativeProduct(a: int, n: nat)
    requires a < 0 && n > 0
    ensures a * n < 0
  {
  }

  // ----- the first 2^m probes visit every bucket -----

  ghost function Visited(h: nat, steps: nat, size: nat): set<nat>
    requires size > 0
  {
    set i | 0 <= i < steps :: Probe(h, i, size)
  }

  ghost function Below(n: nat): set<nat>
  {
    if n == 0 then {} else Below(n - 1) + {n - 1}
  }

  lemma {:induction false} BelowCard(n: nat)
    ensures |Below(n)| == n
    ensures forall i: nat :: i in Below(n) <==> i < n
  {
    if n > 0 {
      BelowCard(n - 1);
    }
  }

  lemma {:induction false} VisitedCard(m: nat, h: nat, steps: nat)
    requires steps <= Pow2(m)
    ensures |Visited(h, steps, Pow2(m))| == steps
  {
    var n := Pow2(m);
    if steps > 0 {
      VisitedCard(m, h, steps - 1);
      var b := Probe(h, steps - 1, n);
      assert Visited(h, steps, n) == Visited(h, steps - 1, n) + {b};
      if b in Visited(h, steps - 1, n) {
        var i :| 0 <= i < steps - 1 && Probe(h, i, n) == b;
        ProbesDistinct(m, h, i, steps - 1);
        assert false;
      }
    }
  }

  lemma SubsetCardEq(a: set<nat>, b: set<nat>)
    requires a <= b && |a| == |b|
    ensures a == b
  {
    if x :| x in b && x !in a {
      assert a <= b - {x};
      SubsetCard(a, b - {x});
      assert false;
    }
  }

  lemma {:induction false} SubsetCard<T>(a: set<T>, b: set<T>)
    requires a <= b
    ensures |a| <= |b|
    decreases a
  {
    if a != {} {
      var x :| x in a;
      SubsetCard(a - {x}, b - {x});
    }
  }

  /** Every bucket of a table of 2^m buckets is some search's step below 2^m,
      whatever the hash value the search starts from. */
  lemma ProbesCover(m: nat, h: nat, b: nat) returns (s: nat)
    requires b < Pow2(m)
    ensures s < Pow2(m) && Probe(h, s, Pow2(m)) == b
  {
    var n := Pow2(m);
    VisitedCard(m, h, n);
    BelowCard(n);
    SubsetCardEq(Visited(h, n, n), Below(n));
    assert b in Visited(h, n, n);
    s :| 0 <= s < n && Probe(h, s, n) == b;
  }

  // ----- when the search is back where it started -----

  /** The test `i == last` first succeeds after 2^(m+1) - 1 steps, long after
      every bucket has been looked at. */
  lemma FirstReturn(m: nat, n: nat, h: nat, s: nat)
    requires n == Pow2(m) && 0 < s < 2 * n
    ensures Probe(h, s, n) == Probe(h, 0, n) <==> s == 2 * n - 1
  {
    if s < 2 * n - 1 {
      TriNotMultiple(m, s);
      if Probe(h, s, n) == Probe(h, 0, n) {
        EqualModDivides(h, h + Tri(s), n);
      }
    } else {
      TriClosed(s);
      assert 2 * Tri(s) == 2 * ((2 * n - 1) * n);
      ModShift(h, 2 * n - 1, n);
    }
  }

  lemma TriNotMultiple(m: nat, s: nat)
    requires 0 < s < 2 * Pow2(m) - 1
    ensures !Divides(Pow2(m), Tri(s))
  {
    var u, v := TriFactors(0, s, 2 * Pow2(m));
    if Divides(Pow2(m), Tri(s)) {
      DoubleDivides(m, Tri(s));
      NoSmallProduct(m + 1, u, v);
    }
  }
}
