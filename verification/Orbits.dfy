/**
 Orbits of a step function, and a criterion for the exact length of a cycle: a point that is back after M steps, but
 not after M / q steps for any prime factor q of M, is back for the first time after M steps.
 */
module Orbits {
  import opened Basics

  function Iter<X>(g: X -> X, x: X, k: nat): X { if k == 0 then x else g(Iter(g, x, k - 1)) }

  lemma {:induction false} IterAdd<X>(g: X -> X, x: X, a: nat, b: nat)
    ensures Iter(g, x, a + b) == Iter(g, Iter(g, x, a), b)
  {
    if b > 0 {
      IterAdd(g, x, a, b - 1);
    }
  }

  /** Back at the start after `m` steps, and not before. */
  ghost predicate Period<X(!new)>(g: X -> X, x: X, m: nat) {
    m > 0 && Iter(g, x, m) == x && forall k :: 0 < k < m ==> Iter(g, x, k) != x
  }

  lemma {:induction false} BackAgain<X>(g: X -> X, x: X, m: nat, c: nat)
    requires Iter(g, x, m) == x
    ensures Iter(g, x, m * c) == x
  {
    if c > 0 {
      BackAgain(g, x, m, c - 1);
      assert m * c == m * (c - 1) + m;
      IterAdd(g, x, m * (c - 1), m);
    }
  }

  /** A cycle has a first return. */
  lemma {:induction false} FirstReturn<X(!new)>(g: X -> X, x: X, m: nat, k: nat) returns (t: nat)
    requires 0 < k <= m && Iter(g, x, m) == x && forall j :: 0 < j < k ==> Iter(g, x, j) != x
    ensures t <= m && Period(g, x, t)
    decreases m - k
  {
    if Iter(g, x, k) == x {
      t := k;
    } else {
      t := FirstReturn(g, x, m, k + 1);
    }
  }

  ghost predicate Divides(d: nat, n: nat) { exists c: nat {:trigger d * c} :: n == d * c }

  /** The first return divides every return. */
  lemma {:induction false} PeriodDivides<X(!new)>(g: X -> X, x: X, t: nat, m: nat) returns (c: nat)
    requires Period(g, x, t) && Iter(g, x, m) == x
    ensures m == t * c
    decreases m
  {
    if m == 0 {
      c := 0;
    } else {
      assert t <= m;
      BackBefore(g, x, t, m);
      c := PeriodDivides(g, x, t, m - t);
      c := c + 1;
    }
  }

  lemma {:induction false} BackBefore<X>(g: X -> X, x: X, t: nat, m: nat)
    requires t <= m && Iter(g, x, t) == x && Iter(g, x, m) == x
    ensures Iter(g, x, m - t) == x
  {
    IterAdd(g, x, t, m - t);
  }

  // ---------------------------------------------------------------------------
  // Primes
  // ---------------------------------------------------------------------------

  ghost predicate Prime(q: nat) { q >= 2 && forall d: nat :: 2 <= d < q ==> !Divides(d, q) }

  function Product(factors: seq<nat>): nat { if factors == [] then 1 else factors[0] * Product(factors[1..]) }

  /** `j` divides `k` times `r`. */
  ghost predicate Reaches(j: nat, r: nat, k: nat) { Divides(j, k * r) }

  lemma {:induction false} ReachesDifference(j: nat, r: nat, a: nat, b: nat)
    requires j > 0 && a >= b && Reaches(j, r, a) && Reaches(j, r, b)
    ensures Reaches(j, r, a - b)
  {
    var c: nat :| a * r == j * c;
    var d: nat :| b * r == j * d;
    assert (a - b) * r == j * (c - d);
    assert c < d ==> j * (c - d) < 0;
    assert Divides(j, (a - b) * r);
  }

  lemma {:induction false} LeastReach(j: nat, r: nat, m: nat, k: nat) returns (g: nat)
    requires 0 < k <= m && Reaches(j, r, m) && forall i :: 0 < i < k ==> !Reaches(j, r, i)
    ensures 0 < g <= m && Reaches(j, r, g) && forall i :: 0 < i < g ==> !Reaches(j, r, i)
    decreases m - k
  {
    if Reaches(j, r, k) {
      g := k;
    } else {
      g := LeastReach(j, r, m, k + 1);
    }
  }

  lemma {:induction false} LeastDivides(j: nat, r: nat, g: nat, m: nat) returns (c: nat)
    requires j > 0 && g > 0 && Reaches(j, r, g) && Reaches(j, r, m) && forall i :: 0 < i < g ==> !Reaches(j, r, i)
    ensures m == g * c
    decreases m
  {
    if m == 0 {
      c := 0;
    } else {
      ReachesDifference(j, r, m, g);
      c := LeastDivides(j, r, g, m - g);
      c := c + 1;
    }
  }

  /** Euclid: a number that divides q * r for a prime q that does not divide it divides r. */
  lemma {:induction false} Euclid(q: nat, j: nat, r: nat)
    requires Prime(q) && j > 0 && !Divides(q, j) && Divides(j, q * r)
    ensures Divides(j, r)
  {
    assert Reaches(j, r, q);
    assert j * r == j * r && Divides(j, j * r);
    var g := LeastReach(j, r, q, 1);
    var c := LeastDivides(j, r, g, q);
    var d := LeastDivides(j, r, g, j);
    assert Divides(g, q) && Divides(g, j);
    assert g == 1;
    assert 1 * r == r;
  }

  /** A number above one that divides a product of primes has one of them as a divisor. */
  lemma {:induction false} PrimeFactor(j: nat, factors: seq<nat>) returns (k: nat)
    requires j > 1 && Divides(j, Product(factors)) && forall i :: 0 <= i < |factors| ==> Prime(factors[i])
    ensures k < |factors| && Divides(factors[k], j)
  {
    if factors == [] {
      assert false;
    } else if Divides(factors[0], j) {
      k := 0;
    } else {
      Euclid(factors[0], j, Product(factors[1..]));
      k := PrimeFactor(j, factors[1..]);
      k := k + 1;
    }
  }

  /** The prime factors of m, with multiplicity, and what is left of m without each of them. */
  ghost predicate Factored(m: nat, factors: seq<nat>, cofactors: seq<nat>) {
    && m > 0 && m == Product(factors) && |factors| == |cofactors|
    && forall i :: 0 <= i < |factors| ==> Prime(factors[i]) && m == factors[i] * cofactors[i]
  }

  /**
   The criterion: m is the exact period if and only if m steps lead back and m / q steps do not, for each prime
   factor q of m.
   */
  lemma {:induction false} PeriodByPrimes<X(!new)>(g: X -> X, x: X, m: nat, factors: seq<nat>, cofactors: seq<nat>)
    requires Factored(m, factors, cofactors)
    ensures Period(g, x, m)
       <==> Iter(g, x, m) == x && forall i :: 0 <= i < |cofactors| ==> Iter(g, x, cofactors[i]) != x
  {
    if Iter(g, x, m) == x && forall i :: 0 <= i < |cofactors| ==> Iter(g, x, cofactors[i]) != x {
      var t := FirstReturn(g, x, m, 1);
      var j := PeriodDivides(g, x, t, m);
      OnlyOnce(g, x, m, factors, cofactors, t, j);
    }
    if Period(g, x, m) {
      forall i | 0 <= i < |cofactors| ensures Iter(g, x, cofactors[i]) != x {
        ProperPart(factors[i], cofactors[i]);
      }
    }
  }

  lemma {:induction false} OnlyOnce<X(!new)>(
    g: X -> X, x: X, m: nat, factors: seq<nat>, cofactors: seq<nat>, t: nat, j: nat)
    requires Factored(m, factors, cofactors) && m == t * j && Iter(g, x, t) == x
    requires forall i :: 0 <= i < |cofactors| ==> Iter(g, x, cofactors[i]) != x
    ensures m == t
  {
    if j > 1 {
      assert m == j * t && Divides(j, m);
      var k := PrimeFactor(j, factors);
      var c: nat :| j == factors[k] * c;
      Cofactor(factors[k], cofactors[k], t, c);
      BackAgain(g, x, t, c);
      assert false;
    }
  }

  lemma {:induction false} Cofactor(q: nat, r: nat, t: nat, c: nat)
    requires q > 0 && q * r == t * (q * c)
    ensures r == t * c
  {
    assert q * (r - t * c) == q * r - t * (q * c);
    assert r - t * c > 0 ==> q * (r - t * c) > 0;
    assert r - t * c < 0 ==> q * (r - t * c) < 0;
  }

  lemma {:induction false} ProperPart(q: nat, r: nat)
    requires q >= 2 && q * r > 0
    ensures 0 < r < q * r
  {
  }

  // ---------------------------------------------------------------------------
  // Counting
  // ---------------------------------------------------------------------------

  function UpTo(m: nat): (s: set<nat>)
    ensures |s| == m && forall k: nat :: k in s <==> 1 <= k <= m
  {
    if m == 0 then {} else UpTo(m - 1) + {m}
  }

  function Elements(s: seq<nat>): (r: set<nat>)
    ensures forall x :: x in r <==> x in s
  {
    if s == [] then {} else {s[0]} + Elements(s[1..])
  }

  lemma {:induction false} DistinctSize(s: seq<nat>)
    requires NoDup(s)
    ensures |Elements(s)| == |s|
  {
    if s != [] {
      DistinctSize(s[1..]);
      assert s[0] !in s[1..];
    }
  }

  /** As many distinct numbers as there is room for: none is missing. */
  lemma {:induction false} FillsUp(s: seq<nat>, m: nat, v: nat)
    requires NoDup(s) && |s| == m && (forall k :: 0 <= k < |s| ==> 1 <= s[k] <= m) && 1 <= v <= m
    ensures v in s
  {
    DistinctSize(s);
    var a, b := Elements(s), UpTo(m);
    assert b == a + (b - a);
    assert |b| == |a| + |b - a|;
    assert v !in b - a;
  }

  // ---------------------------------------------------------------------------
  // Trial division
  // ---------------------------------------------------------------------------

  /** None of the `n` numbers from `d` on divides `q`; eight of them in one turn. */
  predicate Undivided(q: nat, d: nat, n: nat)
    requires d > 0
    decreases n
  {
    if n == 0 then true
    else if n < 8 then q % d != 0 && Undivided(q, d + 1, n - 1)
    else
      && q % d != 0 && q % (d + 1) != 0 && q % (d + 2) != 0 && q % (d + 3) != 0
      && q % (d + 4) != 0 && q % (d + 5) != 0 && q % (d + 6) != 0 && q % (d + 7) != 0
      && Undivided(q, d + 8, n - 8)
  }

  lemma {:induction false} UndividedAt(q: nat, d: nat, n: nat, i: nat)
    requires d > 0 && Undivided(q, d, n) && d <= i < d + n
    ensures q % i != 0
    decreases n
  {
    if n < 8 {
      if i > d {
        UndividedAt(q, d + 1, n - 1, i);
      }
    } else if i >= d + 8 {
      UndividedAt(q, d + 8, n - 8, i);
    }
  }

  lemma {:induction false} DividesRemainder(d: nat, q: nat, c: nat)
    requires d > 0 && q == d * c
    ensures q % d == 0
  {
    var k, r := q / d, q % d;
    assert q == d * k + r;
    assert d * (c - k) == r;
    assert c - k >= 1 ==> d * (c - k) >= d;
    assert c - k <= -1 ==> d * (c - k) < 0;
  }

  lemma {:induction false} LargerPart(d: nat, c: nat, r: nat)
    requires d * c < (r + 1) * (r + 1) && d > r
    ensures c <= r
  {
    assert c > r ==> d * c >= (r + 1) * c && (r + 1) * c >= (r + 1) * (r + 1);
  }

  /** A number without a divisor up to its square root is prime. */
  lemma {:induction false} PrimeByTrial(q: nat, r: nat)
    requires q >= 2 && q < (r + 1) * (r + 1) && r >= 1
    requires forall i :: 2 <= i <= r ==> q % i != 0
    ensures Prime(q)
  {
    forall d: nat | 2 <= d < q ensures !Divides(d, q) {
      if Divides(d, q) {
        var c: nat :| q == d * c;
        DividesRemainder(d, q, c);
        LargerPart(d, c, r);
        assert q == c * d;
        if c >= 2 {
          DividesRemainder(c, q, d);
        }
        assert false;
      }
    }
  }

  /** The first `n` trials are enough. */
  lemma {:induction false} ByTrial(q: nat, n: nat)
    requires q >= 2 && q < (n + 2) * (n + 2) && Undivided(q, 2, n)
    ensures Prime(q)
  {
    forall i | 2 <= i <= n + 1 ensures q % i != 0 {
      UndividedAt(q, 2, n, i);
    }
    PrimeByTrial(q, n + 1);
  }

  /** The same for `k` times 64 numbers, as many in one turn. */
  predicate UndividedLong(q: nat, d: nat, k: nat)
    requires d > 0
    decreases k
  {
    k == 0 || (
      && q % d != 0 && q % (d + 1) != 0 && q % (d + 2) != 0 && q % (d + 3) != 0
      && q % (d + 4) != 0 && q % (d + 5) != 0 && q % (d + 6) != 0 && q % (d + 7) != 0
      && q % (d + 8) != 0 && q % (d + 9) != 0 && q % (d + 10) != 0 && q % (d + 11) != 0
      && q % (d + 12) != 0 && q % (d + 13) != 0 && q % (d + 14) != 0 && q % (d + 15) != 0
      && q % (d + 16) != 0 && q % (d + 17) != 0 && q % (d + 18) != 0 && q % (d + 19) != 0
      && q % (d + 20) != 0 && q % (d + 21) != 0 && q % (d + 22) != 0 && q % (d + 23) != 0
      && q % (d + 24) != 0 && q % (d + 25) != 0 && q % (d + 26) != 0 && q % (d + 27) != 0
      && q % (d + 28) != 0 && q % (d + 29) != 0 && q % (d + 30) != 0 && q % (d + 31) != 0
      && q % (d + 32) != 0 && q % (d + 33) != 0 && q % (d + 34) != 0 && q % (d + 35) != 0
      && q % (d + 36) != 0 && q % (d + 37) != 0 && q % (d + 38) != 0 && q % (d + 39) != 0
      && q % (d + 40) != 0 && q % (d + 41) != 0 && q % (d + 42) != 0 && q % (d + 43) != 0
      && q % (d + 44) != 0 && q % (d + 45) != 0 && q % (d + 46) != 0 && q % (d + 47) != 0
      && q % (d + 48) != 0 && q % (d + 49) != 0 && q % (d + 50) != 0 && q % (d + 51) != 0
      && q % (d + 52) != 0 && q % (d + 53) != 0 && q % (d + 54) != 0 && q % (d + 55) != 0
      && q % (d + 56) != 0 && q % (d + 57) != 0 && q % (d + 58) != 0 && q % (d + 59) != 0
      && q % (d + 60) != 0 && q % (d + 61) != 0 && q % (d + 62) != 0 && q % (d + 63) != 0
      && UndividedLong(q, d + 64, k - 1))
  }

  lemma {:induction false} UndividedLongAt(q: nat, d: nat, k: nat, i: nat)
    requires d > 0 && UndividedLong(q, d, k) && d <= i < d + 64 * k
    ensures q % i != 0
    decreases k
  {
    if i >= d + 64 {
      UndividedLongAt(q, d + 64, k - 1, i);
    }
  }

  /** The first 64 `k` trials, up to `r`, are enough. */
  lemma {:induction false} ByLongTrial(q: nat, k: nat, r: nat)
    requires q >= 2 && r == 64 * k + 1 && q < (r + 1) * (r + 1) && UndividedLong(q, 2, k)
    ensures Prime(q)
  {
    forall i | 2 <= i <= r ensures q % i != 0 {
      UndividedLongAt(q, 2, k, i);
    }
    PrimeByTrial(q, r);
  }

  lemma {:induction false} ProductIs(factors: seq<nat>, q: nat, rest: seq<nat>, r: nat)
    requires factors == [q] + rest && Product(rest) == r
    ensures Product(factors) == q * r
  {
    assert factors[1..] == rest;
  }
}
