/**
 Lucas' converse of Fermat's theorem: if some number has exact period q - 1 under multiplication modulo q, its
 powers pass through every non-zero remainder, a proper divisor of q included, and a multiple of that divisor never
 comes back to one.  So q is prime.
 */
module Primality {
  import opened Orbits

  /** Multiplication by `a` modulo `q`. */
  function Times(a: nat, q: nat): nat -> nat
    requires q > 0
  {
    (x: nat) => (a * x) % q
  }

  /** The k-th power of `a` modulo `q`. */
  function Power(a: nat, q: nat, k: nat): nat
    requires q > 0
  {
    Iter(Times(a, q), 1, k)
  }

  lemma {:induction false} PowerNext(a: nat, q: nat, k: nat)
    requires q > 0
    ensures Power(a, q, k + 1) == (a * Power(a, q, k)) % q
  {
  }

  /** The quotient of a division is unique. */
  lemma {:induction false} Remainder(x: int, k: int, r: nat, q: nat)
    requires r < q && x == q * k + r
    ensures x % q == r
  {
    var c, s := x / q, x % q;
    assert q * (c - k) == r - s;
    assert c - k >= 1 ==> q * (c - k) >= q;
    assert c - k <= -1 ==> q * (c - k) + q <= 0;
  }

  lemma {:induction false} ModOfMod(x: nat, y: nat, q: nat)
    requires q > 0
    ensures (x * (y % q)) % q == (x * y) % q
  {
    var c, r := y / q, y % q;
    var d, s := (x * r) / q, (x * r) % q;
    assert y == q * c + r && x * r == q * d + s;
    assert x * y == x * (q * c + r) == q * (x * c) + x * r == q * (x * c + d) + s by {
      assert x * (q * c + r) == x * (q * c) + x * r;
      assert x * (q * c) == q * (x * c);
      assert q * (x * c + d) == q * (x * c) + q * d;
    }
    Remainder(x * y, x * c + d, s, q);
  }

  lemma {:induction false} Reordered(a: nat, x: nat, y: nat)
    ensures a * (x * y) == x * (a * y)
  {
  }

  lemma {:induction false} TimesSwapped(a: nat, x: nat, y: nat, q: nat)
    requires q > 0
    ensures (a * ((x * y) % q)) % q == (x * ((a * y) % q)) % q
  {
    ModOfMod(a, x * y, q);
    ModOfMod(x, a * y, q);
    Reordered(a, x, y);
  }

  /** Exponents add up. */
  lemma {:induction false} PowerAdd(a: nat, q: nat, j: nat, k: nat)
    requires q > 1
    ensures Power(a, q, j + k) == (Power(a, q, j) * Power(a, q, k)) % q
    decreases k
  {
    var x := Power(a, q, j);
    if k == 0 {
      PowerRange(a, q, j);
      Remainder(x, 0, x, q);
    } else {
      var y := Power(a, q, k - 1);
      PowerAdd(a, q, j, k - 1);
      PowerNext(a, q, j + k - 1);
      PowerNext(a, q, k - 1);
      TimesSwapped(a, x, y, q);
    }
  }

  lemma {:induction false} PowerRange(a: nat, q: nat, k: nat)
    requires q > 1
    ensures Power(a, q, k) < q
  {
    if k > 0 {
      PowerNext(a, q, k - 1);
    }
  }

  /** If q has a divisor, multiples of it stay multiples. */
  lemma {:induction false} MultiplesStay(a: nat, q: nat, d: nat, x: nat, k: nat)
    requires q > 0 && d > 0 && Divides(d, q) && Divides(d, x)
    ensures Divides(d, Iter(Times(a, q), x, k))
    decreases k
  {
    if k > 0 {
      MultiplesStay(a, q, d, x, k - 1);
      MultipleNext(a, q, d, Iter(Times(a, q), x, k - 1));
    }
  }

  lemma {:induction false} DividesTimes(d: nat, x: nat, a: nat)
    requires Divides(d, x)
    ensures Divides(d, a * x)
  {
    var c: nat :| x == d * c;
    assert a * (d * c) == d * (a * c);
  }

  lemma {:induction false} TimesDifference(d: nat, c: nat, e: nat)
    ensures d * c - d * e == d * (c - e)
  {
  }

  lemma {:induction false} MoreTimes(d: nat, c: nat, e: nat)
    requires c < e
    ensures d * c <= d * e
  {
  }

  lemma {:induction false} DividesDifference(d: nat, x: nat, y: nat)
    requires Divides(d, x) && Divides(d, y) && x >= y
    ensures Divides(d, x - y)
  {
    var c: nat :| x == d * c;
    var e: nat :| y == d * e;
    if c < e {
      MoreTimes(d, c, e);
      assert x - y == d * 0;
    } else {
      TimesDifference(d, c, e);
      assert x - y == d * (c - e);
    }
  }

  lemma {:induction false} Division(x: nat, q: nat)
    requires q > 0
    ensures x == (x / q) * q + x % q
  {
  }

  lemma {:induction false} DividesRest(d: nat, x: nat, q: nat, k: nat, r: nat)
    requires Divides(d, x) && Divides(d, q) && x == k * q + r
    ensures Divides(d, r)
  {
    DividesTimes(d, q, k);
    DividesDifference(d, x, k * q);
  }

  lemma {:induction false} RemainderDivided(d: nat, x: nat, q: nat)
    requires q > 0 && Divides(d, x) && Divides(d, q)
    ensures Divides(d, x % q)
  {
    Division(x, q);
    DividesRest(d, x, q, x / q, x % q);
  }

  lemma {:induction false} MultipleNext(a: nat, q: nat, d: nat, y: nat)
    requires q > 0 && d > 0 && Divides(d, q) && Divides(d, y)
    ensures Divides(d, (a * y) % q)
  {
    DividesTimes(d, y, a);
    RemainderDivided(d, a * y, q);
  }

  lemma {:induction false} NothingDividesOne(d: nat)
    requires d >= 2
    ensures !Divides(d, 1)
  {
    forall c: nat ensures d * c != 1 {
      assert c >= 1 ==> d * c >= d;
    }
  }

  /** No power is zero, since a later one is one. */
  lemma {:induction false} NeverZero(a: nat, q: nat, m: nat, k: nat)
    requires q > 1 && k <= m && Power(a, q, m) == 1
    ensures 1 <= Power(a, q, k) <= q - 1
  {
    PowerRange(a, q, k);
    if Power(a, q, k) == 0 {
      PowerAdd(a, q, k, m - k);
      assert false;
    }
  }

  lemma {:induction false} DistinctPowers(a: nat, q: nat, m: nat, j: nat, k: nat)
    requires q > 1 && Period(Times(a, q), 1, m) && j < k < m
    ensures Power(a, q, j) != Power(a, q, k)
  {
    if Power(a, q, j) == Power(a, q, k) {
      PowerAdd(a, q, j, m - k);
      PowerAdd(a, q, k, m - k);
      assert false;
    }
  }

  /** Every remainder other than zero is a power. */
  lemma {:induction false} AllPowers(a: nat, q: nat, d: nat) returns (i: nat)
    requires q > 1 && Period(Times(a, q), 1, q - 1) && 1 <= d <= q - 1
    ensures i < q - 1 && Power(a, q, i) == d
  {
    var m := q - 1;
    var powers := seq(m, k requires 0 <= k < m => Power(a, q, k));
    forall k | 0 <= k < m ensures 1 <= powers[k] <= m {
      NeverZero(a, q, m, k);
    }
    forall j, k | 0 <= j < k < m ensures powers[j] != powers[k] {
      DistinctPowers(a, q, m, j, k);
    }
    FillsUp(powers, m, d);
    i :| 0 <= i < m && powers[i] == d;
  }

  lemma {:induction false} Lucas(a: nat, q: nat)
    requires q > 1 && Period(Times(a, q), 1, q - 1)
    ensures Prime(q)
  {
    forall d: nat | 2 <= d < q ensures !Divides(d, q) {
      if Divides(d, q) {
        var i := AllPowers(a, q, d);
        IterAdd(Times(a, q), 1, i, q - 1 - i);
        assert d == d * 1;
        NothingDividesOne(d);
        MultiplesStay(a, q, d, d, q - 1 - i);
        assert false;
      }
    }
  }

  // ---------------------------------------------------------------------------
  // Certificates
  // ---------------------------------------------------------------------------

  /** Multiplying by `x` is multiplying `j` times by `a`. */
  ghost predicate Acts(a: nat, q: nat, x: nat, j: nat)
    requires q > 0
  {
    forall y: nat :: y < q ==> Iter(Times(a, q), y, j) == (x * y) % q
  }

  lemma {:induction false} ActsOnce(a: nat, q: nat)
    requires q > 0
    ensures Acts(a, q, a, 1)
  {
    forall y: nat | y < q ensures Iter(Times(a, q), y, 1) == (a * y) % q {
      assert Iter(Times(a, q), y, 0) == y;
    }
  }

  lemma {:induction false} Swapped(x: nat, y: nat)
    ensures x * y == y * x
  {
  }

  lemma {:induction false} TimesRegrouped(x: nat, y: nat, z: nat, q: nat)
    requires q > 0
    ensures (z * ((x * y) % q)) % q == (((x * z) % q) * y) % q
  {
    ModOfMod(z, x * y, q);
    ModOfMod(y, x * z, q);
    Reordered(z, x, y);
    Reordered(x, z, y);
    Reordered(y, x, z);
    Swapped(y, z);
    Swapped(y, (x * z) % q);
  }

  lemma {:induction false} ActsOn(a: nat, q: nat, x: nat, j: nat, z: nat, k: nat, w: nat)
    requires q > 0 && Acts(a, q, x, j) && Acts(a, q, z, k) && w == (x * z) % q
    ensures Acts(a, q, w, j + k)
  {
    forall y: nat | y < q ensures Iter(Times(a, q), y, j + k) == (w * y) % q {
      IterAdd(Times(a, q), y, j, k);
      TimesRegrouped(x, y, z, q);
    }
  }

  /** Any account of which numbers act as how many multiplications. */
  type Acting = (nat, nat) -> bool

  /** `w` is the product of `x` and `z`, which act as `j` and `k` multiplications. */
  predicate Multiplied(q: nat, x: nat, j: nat, z: nat, k: nat, w: nat)
    requires q > 0
  {
    w == (x * z) % q
  }

  /** It contains every product of two that it contains. */
  ghost predicate ActsClosed(q: nat, acts: Acting)
    requires q > 0
  {
    forall x: nat, j: nat, z: nat, k: nat, w: nat {:trigger Multiplied(q, x, j, z, k, w)} ::
      acts(x, j) && acts(z, k) && Multiplied(q, x, j, z, k, w) ==> acts(w, j + k)
  }

  ghost function ActsOf(a: nat, q: nat): Acting
    requires q > 0
  {
    (x: nat, j: nat) => Acts(a, q, x, j)
  }

  lemma {:induction false} ActsOfClosed(a: nat, q: nat)
    requires q > 0
    ensures ActsClosed(q, ActsOf(a, q))
  {
    var acts := ActsOf(a, q);
    forall x: nat, j: nat, z: nat, k: nat, w: nat {:trigger Multiplied(q, x, j, z, k, w)}
      | acts(x, j) && acts(z, k) && Multiplied(q, x, j, z, k, w)
      ensures acts(w, j + k)
    {
      ActsOn(a, q, x, j, z, k, w);
    }
  }

  /** After `j` multiplications one is not back at one. */
  ghost predicate Elsewhere(a: nat, q: nat, j: nat)
    requires q > 0
  {
    exists x: nat :: Acts(a, q, x, j) && 1 < x < q
  }

  ghost predicate AllElsewhere(a: nat, q: nat, js: seq<nat>)
    requires q > 0
  {
    forall i :: 0 <= i < |js| ==> Elsewhere(a, q, js[i])
  }

  lemma {:induction false} ElsewhereToo(a: nat, q: nat, x: nat, j: nat, rest: seq<nat>)
    requires q > 0 && Acts(a, q, x, j) && 1 < x < q && AllElsewhere(a, q, rest)
    ensures AllElsewhere(a, q, [j] + rest)
  {
    assert Elsewhere(a, q, j);
  }

  lemma {:induction false} ActsOnOne(a: nat, q: nat, x: nat, j: nat)
    requires q > 1 && x < q && Acts(a, q, x, j)
    ensures Iter(Times(a, q), 1, j) == x
  {
    assert x * 1 == x;
    Remainder(x, 0, x, q);
  }

  /** The test: q is prime if q - 1 multiplications are none, and (q - 1) / p are some, for each prime factor p. */
  lemma {:induction false} PrimeByPowers(a: nat, q: nat, factors: seq<nat>, cofactors: seq<nat>)
    requires q > 1 && Factored(q - 1, factors, cofactors)
    requires Acts(a, q, 1, q - 1) && AllElsewhere(a, q, cofactors)
    ensures Prime(q)
  {
    ActsOnOne(a, q, 1, q - 1);
    forall i | 0 <= i < |cofactors| ensures Iter(Times(a, q), 1, cofactors[i]) != 1 {
      assert Elsewhere(a, q, cofactors[i]);
      var x: nat :| Acts(a, q, x, cofactors[i]) && 1 < x < q;
      ActsOnOne(a, q, x, cofactors[i]);
    }
    PeriodByPrimes(Times(a, q), 1, q - 1, factors, cofactors);
    Lucas(a, q);
  }
}
