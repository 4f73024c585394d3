/**
 The period of the generator (src/shift_register_modulator.cpp and src/stochastic_modulator.cpp, next_rand): from every
 seed it runs through all 2^32 seeds before it is back.

 Over the integers, 2^j steps multiply by A and add C, where A is one more than a multiple of 2^(j + 2) and C is an odd
 multiple of 2^j.  So 2^31 steps change the top bit of every seed, and 2^32 steps change nothing.
 */
module LcgPeriod {
  import opened Lcg
  import opened Orbits

  const MODULUS: nat := 0x1_0000_0000

  /** One step, and the value drawn from a seed, as the source writes them: `k` is what the wrap-around drops. */
  lemma {:induction false} StepAndDraw(s: Seed) returns (k: nat)
    ensures 1664525 * s + 1013904223 == 4294967296 * k + NextSeed(s) && 0 <= NextSeed(s) < 4294967296
    ensures Draw(s) * 16777216.0 == (s / 256) as real
  {
    k := (s * 1664525 + 1013904223) / 4294967296;
  }

  /** x and y have the same remainder. */
  ghost predicate Same(x: int, y: int) { exists k: int {:trigger k * MODULUS} :: x - y == k * MODULUS }

  lemma {:induction false} SameBy(x: int, y: int, k: int)
    requires x - y == k * MODULUS
    ensures Same(x, y)
  {
  }

  lemma {:induction false} SameSeed(s: Seed, t: Seed)
    requires Same(s, t)
    ensures s == t
  {
    var k: int :| s - t == k * MODULUS;
  }

  lemma {:induction false} SameChain(x: int, y: int, z: int)
    requires Same(x, y) && Same(y, z)
    ensures Same(x, z)
  {
    var k: int :| x - y == k * MODULUS;
    var l: int :| y - z == l * MODULUS;
    SameBy(x, z, k + l);
  }

  lemma {:induction false} SameAffine(x: int, y: int, a: int, c: int)
    requires Same(x, y)
    ensures Same(a * x + c, a * y + c)
  {
    var k: int :| x - y == k * MODULUS;
    assert a * x + c - (a * y + c) == a * (x - y) == (a * k) * MODULUS by {
      assert a * (k * MODULUS) == (a * k) * MODULUS;
    }
    SameBy(a * x + c, a * y + c, a * k);
  }

  // ---------------------------------------------------------------------------
  // Many steps at once
  // ---------------------------------------------------------------------------

  function Pow2(n: nat): (p: nat)
    ensures p >= 1
  {
    if n == 0 then 1 else 2 * Pow2(n - 1)
  }

  /** 2^j steps multiply by A(j) and add C(j). */
  function A(j: nat): nat { if j == 0 then 1664525 else A(j - 1) * A(j - 1) }

  function C(j: nat): nat { if j == 0 then 1013904223 else C(j - 1) * (A(j - 1) + 1) }

  lemma {:induction false} StepIsSame(s: Seed)
    ensures Same(NextSeed(s), A(0) * s + C(0))
  {
    var x := s * 1664525 + 1013904223;
    assert x == (x / MODULUS) * MODULUS + x % MODULUS;
    SameBy(NextSeed(s), A(0) * s + C(0), -(x / MODULUS));
  }

  lemma {:induction false} LaterAdd(s: Seed, m: nat, n: nat)
    ensures Later(s, m + n) == Later(Later(s, m), n)
  {
    if n > 0 {
      LaterAdd(s, m, n - 1);
    }
  }

  lemma {:induction false} Square(a: int, c: int, s: int)
    ensures a * (a * s + c) + c == (a * a) * s + c * (a + 1)
  {
    assert a * (a * s + c) == a * (a * s) + a * c;
    assert a * (a * s) == (a * a) * s;
  }

  lemma {:induction false} ManySteps(s: Seed, j: nat)
    ensures Same(Later(s, Pow2(j)), A(j) * s + C(j))
    decreases j
  {
    if j == 0 {
      StepIsSame(s);
      assert Later(s, 1) == NextSeed(Later(s, 0));
    } else {
      var a, c, n := A(j - 1), C(j - 1), Pow2(j - 1);
      var t := Later(s, n);
      LaterAdd(s, n, n);
      ManySteps(s, j - 1);
      ManySteps(t, j - 1);
      SameAffine(t, a * s + c, a, c);
      Square(a, c, s);
      SameChain(Later(s, Pow2(j)), a * t + c, a * (a * s + c) + c);
    }
  }

  // ---------------------------------------------------------------------------
  // Powers of two in them
  // ---------------------------------------------------------------------------

  lemma {:induction false} Multiplier(j: nat) returns (p: nat)
    ensures A(j) == 1 + Pow2(j + 2) * p
  {
    if j == 0 {
      assert Pow2(2) == 4 by {
        assert Pow2(1) == 2;
      }
      p := 416131;
    } else {
      var q := Multiplier(j - 1);
      var w := Pow2(j + 1);
      p := q + Pow2(j) * (q * q);
      SquareOne(w, q, Pow2(j));
      assert Pow2(j + 2) == 2 * w;
    }
  }

  lemma {:induction false} SquareOne(w: nat, q: nat, h: nat)
    requires w == 2 * h
    ensures (1 + w * q) * (1 + w * q) == 1 + (2 * w) * (q + h * (q * q))
  {
    var x := w * q;
    assert (1 + x) * (1 + x) == 1 + 2 * x + x * x;
    assert x * x == (w * w) * (q * q);
    assert w * w == (2 * w) * h;
    assert (2 * w) * (q + h * (q * q)) == (2 * w) * q + ((2 * w) * h) * (q * q);
    assert (2 * w) * q == 2 * x;
  }

  lemma {:induction false} Increment(j: nat) returns (u: nat)
    ensures C(j) == Pow2(j) * u && u % 2 == 1
  {
    if j == 0 {
      u := 1013904223;
    } else {
      var v := Increment(j - 1);
      var q := Multiplier(j - 1);
      var n := Pow2(j - 1);
      assert Pow2(j + 1) == 2 * Pow2(j) == 4 * n;
      NextIncrement(n, v, q, A(j - 1), C(j - 1));
      u := v * (1 + 2 * (n * q));
    }
  }

  lemma {:induction false} NextIncrement(n: nat, v: nat, q: nat, a: nat, c: nat)
    requires c == n * v && v % 2 == 1 && a == 1 + (4 * n) * q
    ensures c * (a + 1) == (2 * n) * (v * (1 + 2 * (n * q))) && (v * (1 + 2 * (n * q))) % 2 == 1
  {
    var y := n * q;
    assert (4 * n) * q == 4 * y;
    assert a + 1 == 2 * (1 + 2 * y);
    Doubled(n, v, 1 + 2 * y);
    OddTimes(v, y);
  }

  lemma {:induction false} Doubled(n: nat, v: nat, x: nat)
    ensures (n * v) * (2 * x) == (2 * n) * (v * x)
  {
    assert (n * v) * (2 * x) == 2 * ((n * v) * x);
    assert (n * v) * x == n * (v * x);
    assert (2 * n) * (v * x) == 2 * (n * (v * x));
  }

  lemma {:induction false} OddTimes(v: nat, y: nat)
    requires v % 2 == 1
    ensures (v * (1 + 2 * y)) % 2 == 1
  {
    assert v * (1 + 2 * y) == v + 2 * (v * y);
  }

  // ---------------------------------------------------------------------------
  // The period
  // ---------------------------------------------------------------------------

  lemma {:induction false} PowerValues()
    ensures Pow2(31) == 0x8000_0000 && Pow2(32) == MODULUS
  {
    assert Pow2(4) == 16;
    assert Pow2(8) == 256;
    assert Pow2(12) == 4096;
    assert Pow2(16) == 65536;
    assert Pow2(20) == 1048576;
    assert Pow2(24) == 16777216;
    assert Pow2(28) == 268435456;
  }

  lemma {:induction false} AddsMultiple(a: int, c: int, s: int, m: int, p: int, u: int)
    requires a == 1 + m * p && c == m * u
    ensures a * s + c - s == m * (p * s + u)
  {
    assert (m * p) * s == m * (p * s);
    assert (1 + m * p) * s == s + (m * p) * s;
  }

  /** 2^32 steps lead back. */
  lemma {:induction false} ComesBack(s: Seed)
    ensures Later(s, MODULUS) == s
  {
    PowerValues();
    ManySteps(s, 32);
    var p := Multiplier(32);
    var u := Increment(32);
    assert Pow2(34) == 4 * MODULUS;
    FullTurn(s, A(32), C(32), p, u);
    SameChain(Later(s, MODULUS), A(32) * s + C(32), s);
    SameSeed(Later(s, MODULUS), s);
  }

  lemma {:induction false} FullTurn(s: int, a: int, c: int, p: int, u: int)
    requires a == 1 + (4 * MODULUS) * p && c == MODULUS * u
    ensures Same(a * s + c, s)
  {
    assert (4 * MODULUS) * p == MODULUS * (4 * p);
    AddsMultiple(a, c, s, MODULUS, 4 * p, u);
    SameBy(a * s + c, s, 4 * p * s + u);
  }

  /** 2^31 steps do not. */
  lemma {:induction false} NotHalfway(s: Seed)
    ensures Later(s, 0x8000_0000) != s
  {
    PowerValues();
    ManySteps(s, 31);
    var p := Multiplier(31);
    var u := Increment(31);
    assert Pow2(33) == 2 * MODULUS;
    if Later(s, 0x8000_0000) == s {
      HalfTurn(s, A(31), C(31), p, u);
    }
  }

  lemma {:induction false} HalfTurn(s: int, a: int, c: int, p: int, u: int)
    requires a == 1 + (2 * MODULUS) * p && c == 0x8000_0000 * u && u % 2 == 1
    ensures !Same(s, a * s + c)
  {
    var h := 0x8000_0000;
    assert (2 * MODULUS) * p == h * (4 * p);
    AddsMultiple(a, c, s, h, 4 * p, u);
    assert (4 * p) * s == 4 * (p * s);
    forall k: int ensures s - (a * s + c) != k * MODULUS {
      OddHalves(p * s, u, -k);
    }
  }

  lemma {:induction false} OddHalves(x: int, u: int, k: int)
    requires u % 2 == 1
    ensures 0x8000_0000 * (4 * x + u) != k * MODULUS
  {
  }

  lemma {:induction false} LaterIsIter(s: Seed, k: nat)
    ensures Later(s, k) == Iter((x: Seed) => NextSeed(x), s, k)
  {
    if k > 0 {
      LaterIsIter(s, k - 1);
    }
  }

  function Twos(n: nat): (t: seq<nat>)
    ensures |t| == n
  {
    seq(n, i => 2)
  }

  lemma {:induction false} TwosProduct(n: nat)
    ensures Product(Twos(n)) == Pow2(n)
  {
    if n > 0 {
      assert Twos(n)[1..] == Twos(n - 1);
      TwosProduct(n - 1);
    }
  }

  lemma {:induction false} TwosFactor()
    ensures Factored(MODULUS, Twos(32), seq(32, i => 0x8000_0000))
  {
    TwosProduct(32);
    PowerValues();
    assert Prime(2);
  }

  /** The period of every seed is exactly 2^32. */
  lemma {:induction false} FullPeriod(s: Seed)
    ensures Later(s, 4294967296) == s && forall k :: 0 < k < 4294967296 ==> Later(s, k) != s
  {
    var g := (x: Seed) => NextSeed(x);
    ComesBack(s);
    NotHalfway(s);
    LaterIsIter(s, MODULUS);
    LaterIsIter(s, 0x8000_0000);
    TwosFactor();
    PeriodByPrimes(g, s, MODULUS, Twos(32), seq(32, i => 0x8000_0000));
    forall k | 0 < k < 4294967296 ensures Later(s, k) != s {
      LaterIsIter(s, k);
    }
  }
}
