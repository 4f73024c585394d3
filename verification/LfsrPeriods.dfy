/**
 Every length of the lfsr is maximal if a short certificate says so: from every non-zero word the register runs
 through all 2^N - 1 non-zero words before it is back.
 */
module LfsrPeriods {
  import opened Basics
  import opened Orbits
  import opened RegisterWord
  import opened ShiftRegister
  import opened RegisterRuns
  import opened RegisterFeedback
  import opened MaximalLength

  // ---------------------------------------------------------------------------
  // From one word to all
  // ---------------------------------------------------------------------------

  /** The step as a function on all sequences. */
  function Pushing(f: Feed): seq<bool> -> seq<bool> { bits => if bits == [] then [] else Push(f, bits) }

  lemma {:induction false} IterIsIterate(f: Feed, bits: seq<bool>, k: nat)
    requires bits != []
    ensures Iter(Pushing(f), bits, k) == Iterate(f, bits, k)
  {
    if k > 0 {
      IterIsIterate(f, bits, k - 1);
    }
  }

  /** From every word with a bit set, the register is back for the first time after 2^n - 1 edges. */
  ghost predicate Maximal(n: nat) {
    forall v: seq<bool> :: |v| == n && AnySet(v) ==> Period(Pushing(Feedback(n)), v, Pow2(n) - 1)
  }

  /** The numbers that the words of a cycle spell are distinct. */
  lemma {:induction false} CycleValues(f: Feed, start: seq<bool>, m: nat) returns (values: seq<nat>)
    requires start != [] && Injective(f, |start|) && Period(Pushing(f), start, m)
    ensures |values| == m && NoDup(values)
    ensures forall k :: 0 <= k < m ==> values[k] == Value(Iterate(f, start, k))
  {
    values := seq(m, k requires 0 <= k < m => Value(Iterate(f, start, k)));
    forall j, k | 0 <= j < k < m ensures values[j] != values[k] {
      DistinctOnCycle(f, start, m, j, k);
    }
  }

  /** A cycle as long as there are words with a bit set passes through each of them. */
  lemma {:induction false} PassesThrough(f: Feed, start: seq<bool>, v: seq<bool>) returns (i: nat)
    requires start != [] && |v| == |start| && AnySet(start) && AnySet(v)
    requires Injective(f, |start|) && KeepsSet(f, |start|) && Period(Pushing(f), start, Pow2(|start|) - 1)
    ensures Iterate(f, start, i) == v
  {
    var m := Pow2(|start|) - 1;
    var values := CycleValues(f, start, m);
    forall k | 0 <= k < m ensures 1 <= values[k] <= m {
      OrbitValue(f, start, k);
    }
    OrbitValue(f, v, 0);
    i := ValueFound(values, m, Value(v));
    ValueInjective(Iterate(f, start, i), v);
  }

  lemma {:induction false} ValueFound(values: seq<nat>, m: nat, v: nat) returns (i: nat)
    requires NoDup(values) && |values| == m && (forall k :: 0 <= k < m ==> 1 <= values[k] <= m) && 1 <= v <= m
    ensures i < m && values[i] == v
  {
    FillsUp(values, m, v);
    i :| 0 <= i < m && values[i] == v;
  }

  lemma {:induction false} DistinctOnCycle(f: Feed, start: seq<bool>, m: nat, j: nat, k: nat)
    requires start != [] && Injective(f, |start|) && Period(Pushing(f), start, m) && j < k < m
    ensures Value(Iterate(f, start, j)) != Value(Iterate(f, start, k))
  {
    if Value(Iterate(f, start, j)) == Value(Iterate(f, start, k)) {
      ValueInjective(Iterate(f, start, j), Iterate(f, start, k));
      Cancel(f, start, j, k);
      IterIsIterate(f, start, k - j);
      assert false;
    }
  }

  /** All words of a cycle have its period. */
  lemma {:induction false} SamePeriod(f: Feed, start: seq<bool>, m: nat, i: nat)
    requires start != [] && Injective(f, |start|) && Period(Pushing(f), start, m)
    ensures Period(Pushing(f), Iterate(f, start, i), m)
  {
    var v := Iterate(f, start, i);
    IterIsIterate(f, start, m);
    IterateAdd(f, start, i, m);
    IterateAdd(f, start, m, i);
    IterIsIterate(f, v, m);
    forall k | 0 < k < m ensures Iter(Pushing(f), v, k) != v {
      IterIsIterate(f, v, k);
      IterIsIterate(f, start, k);
      IterateAdd(f, start, i, k);
      if Iterate(f, v, k) == v {
        Cancel(f, start, i, i + k);
        assert false;
      }
    }
  }

  /** The word with only its newest bit set. */
  function First(n: nat): (v: seq<bool>)
    ensures |v| == n && (n > 0 ==> AnySet(v))
  {
    var v := UnitOf(0, n);
    assert n > 0 ==> v[0] in v;
    v
  }

  /** `j` edges lead from that word back to it. */
  predicate Returns(n: nat, j: nat)
    requires n > 0
  {
    Iterate(Feedback(n), First(n), j) == First(n)
  }

  predicate NoneReturns(n: nat, js: seq<nat>)
    requires n > 0
  {
    forall i :: 0 <= i < |js| ==> !Returns(n, js[i])
  }

  /**
   A length is maximal if and only if 2^n - 1 edges lead from one particular word back to it and (2^n - 1) / q edges
   do not, for any prime factor q of 2^n - 1.
   */
  lemma {:induction false} MaximalExactly(n: nat, factors: seq<nat>, cofactors: seq<nat>)
    requires 2 <= n <= 32 && Factored(Pow2(n) - 1, factors, cofactors)
    ensures Maximal(n)
       <==> Returns(n, Pow2(n) - 1) && NoneReturns(n, cofactors)
  {
    var f, e, m := Feedback(n), First(n), Pow2(n) - 1;
    PeriodByPrimes(Pushing(f), e, m, factors, cofactors);
    IterIsIterate(f, e, m);
    forall i | 0 <= i < |cofactors| ensures Iter(Pushing(f), e, cofactors[i]) == Iterate(f, e, cofactors[i]) {
      IterIsIterate(f, e, cofactors[i]);
    }
    if Period(Pushing(f), e, m) {
      LfsrReversible(n);
      forall v: seq<bool> | |v| == n && AnySet(v) ensures Period(Pushing(f), v, m) {
        var i := PassesThrough(f, e, v);
        SamePeriod(f, e, m, i);
      }
    }
  }

  lemma {:induction false} ReturnsAtMultiples(f: Feed, v: seq<bool>, m: nat, k: nat)
    requires v != [] && Period(Pushing(f), v, m)
    ensures Iterate(f, v, k) == v <==> k % m == 0
  {
    IterIsIterate(f, v, k);
    if Iterate(f, v, k) == v {
      var c := PeriodDivides(Pushing(f), v, m, k);
      DividesRemainder(m, k, c);
    }
    if k % m == 0 {
      assert k == m * (k / m);
      BackAgain(Pushing(f), v, m, k / m);
    }
  }

  /** In lfsr mode the word is back exactly when the iteration is. */
  lemma {:induction false} BackInRun(r: seq<State>, es: seq<Event>, k: nat)
    requires IsRun(r, es) && k <= |es| && r[0].mode == Lfsr
    ensures r[k].reg == r[0].reg
       <==> Iterate(Feedback(r[0].length), Contents(r[0]), Edges(r, es, k)) == Contents(r[0])
  {
    LfsrRun(r, es, 0, k);
    RunShape(r, es, k);
    if Contents(r[k]) == Contents(r[0]) {
      FitsEqual(r[k].reg, r[0].reg, r[0].length);
    }
  }

  lemma {:induction false} MaximalReturns(n: nat, v: seq<bool>, k: nat)
    requires n > 0 && |v| == n && AnySet(v) && Maximal(n)
    ensures Pow2(n) > 1
    ensures Iterate(Feedback(n), v, k) == v <==> k % (Pow2(n) - 1) == 0
  {
    MaximalPeriod(n, v);
    ReturnsAtMultiples(Feedback(n), v, Pow2(n) - 1, k);
  }

  lemma {:induction false} MaximalPeriod(n: nat, v: seq<bool>)
    requires n > 0 && |v| == n && AnySet(v) && Maximal(n)
    ensures Pow2(n) > 1 && Period(Pushing(Feedback(n)), v, Pow2(n) - 1)
  {
    assert Period(Pushing(Feedback(n)), v, Pow2(n) - 1);
  }

  /**
   In every run of lfsr mode with a maximal length, from any word with a bit set, the register is back at its word
   exactly at the multiples of 2^N - 1 edges.
   */
  lemma {:induction false} RunReturnsExactly(r: seq<State>, es: seq<Event>, k: nat)
    requires IsRun(r, es) && k <= |es| && r[0].mode == Lfsr && AnySet(Contents(r[0])) && Maximal(r[0].length)
    ensures Pow2(r[0].length) > 1
    ensures r[k].reg == r[0].reg <==> Edges(r, es, k) % (Pow2(r[0].length) - 1) == 0
  {
    BackInRun(r, es, k);
    MaximalReturns(r[0].length, Contents(r[0]), Edges(r, es, k));
  }

  // ---------------------------------------------------------------------------
  // Polynomials as 32-bit words
  // ---------------------------------------------------------------------------

  predicate BitOf(c: bv32, i: nat)
    requires i < 32
  {
    (c >> i) & 1 == 1
  }

  /** The low `n` coefficients. */
  function Coef(c: bv32, n: nat): (r: seq<bool>)
    requires n <= 32
    ensures |r| == n
  {
    seq(n, i requires 0 <= i < n => BitOf(c, i))
  }

  function Xor32(c: bv32, d: bv32): bv32 { c ^ d }

  function Shl32(c: bv32): bv32 { c << 1 }

  function Shr32(c: bv32): bv32 { c >> 1 }

  predicate Has(top: bv32, c: bv32) { c & top != 0 }

  predicate Odd(c: bv32) { c & 1 == 1 }

  function Top(n: nat): bv32
    requires 1 <= n <= 32
  {
    1 << (n - 1)
  }

  /** One power more, reduced by `p`. */
  function DoubleWord(p: bv32, top: bv32, c: bv32): bv32 {
    if c & top != 0 then ((c ^ top) << 1) ^ p else c << 1
  }

  /** Adds `c` if the lowest coefficient of `a` is set. */
  function AddWord(a: bv32, acc: bv32, c: bv32): bv32 { if a & 1 == 1 then acc ^ c else acc }

  /** `acc` plus the product of the low `k` coefficients of `a` with `b`; four of them in one turn. */
  function MulWord(p: bv32, top: bv32, a: bv32, b: bv32, acc: bv32, k: nat): bv32
    decreases k
  {
    if k == 0 then acc else
    var a1, b1, c1 := Shr32(a), DoubleWord(p, top, b), AddWord(a, acc, b);
    if k == 1 then c1 else
    var a2, b2, c2 := Shr32(a1), DoubleWord(p, top, b1), AddWord(a1, c1, b1);
    if k == 2 then c2 else
    var a3, b3, c3 := Shr32(a2), DoubleWord(p, top, b2), AddWord(a2, c2, b2);
    if k == 3 then c3 else
    MulWord(p, top, Shr32(a3), DoubleWord(p, top, b3), AddWord(a3, c3, b3), k - 4)
  }

  // ---------------------------------------------------------------------------
  // Single bits
  // ---------------------------------------------------------------------------

  lemma {:induction false} BitXor(c: bv32, d: bv32, j: bv6)
    requires j < 32
    ensures (((c ^ d) >> j) & 1 == 1) == (((c >> j) & 1 == 1) != ((d >> j) & 1 == 1))
  {
  }

  lemma {:induction false} BitClear(c: bv32, j: bv6)
    requires j < 32
    ensures (c >> j) & 1 == 0 ==> c & (1 << j) == 0
  {
  }

  lemma {:induction false} BitSet(c: bv32, j: bv6)
    requires j < 32
    ensures (c >> j) & 1 == 1 ==> c & (1 << j) != 0
  {
  }

  lemma {:induction false} ZeroOrOne(c: bv32, j: bv6)
    requires j < 32
    ensures (c >> j) & 1 == 0 || (c >> j) & 1 == 1
  {
  }

  lemma {:induction false} BitShift(c: bv32, j: bv6)
    requires j < 31
    ensures ((c << 1) >> (j + 1)) & 1 == (c >> j) & 1 && (c >> 1) >> j == c >> (j + 1)
  {
  }

  lemma {:induction false} BitShiftLow(c: bv32)
    ensures ((c << 1) >> 0) & 1 == 0
  {
  }

  lemma {:induction false} BitWithoutTop(c: bv32, t: bv6, j: bv6)
    requires j < t < 32
    ensures (((c ^ (1 << t)) >> j) & 1 == 1) == ((c >> j) & 1 == 1)
  {
  }

  lemma {:induction false} ZeroBit(j: bv6)
    requires j < 32
    ensures ((0 as bv32) >> j) & 1 == 0
  {
  }

  lemma {:induction false} IndexNext(i: nat)
    requires i < 32
    ensures (i + 1) as bv6 == (i as bv6) + 1 && i as bv6 < 32
  {
  }

  lemma {:induction false} Index(i: nat, n: nat)
    requires i < n <= 32
    ensures i as bv6 < n as bv6 <= 32 && (i + 1) as bv6 == (i as bv6) + 1
  {
    IndexNext(i);
    IndexNext(n - 1);
    if i < n - 1 {
      Index(i, n - 1);
    }
  }

  lemma {:induction false} XorBitOf(c: bv32, d: bv32, i: nat)
    requires i < 32
    ensures BitOf(c ^ d, i) == (BitOf(c, i) != BitOf(d, i))
  {
    Index(i, 32);
    BitXor(c, d, i as bv6);
  }

  lemma {:induction false} XorBit(c: bv32, d: bv32, i: nat)
    requires i < 32
    ensures BitOf(Xor32(c, d), i) == (BitOf(c, i) != BitOf(d, i))
  {
    XorBitOf(c, d, i);
  }

  lemma {:induction false} ShlBit(c: bv32, i: nat)
    requires i < 32
    ensures BitOf(Shl32(c), i) == (i > 0 && BitOf(c, i - 1))
  {
    if i == 0 {
      BitShiftLow(c);
    } else {
      Index(i - 1, 31);
      BitShift(c, (i - 1) as bv6);
    }
  }

  lemma {:induction false} ShrBit(c: bv32, i: nat)
    requires i < 31
    ensures BitOf(Shr32(c), i) == BitOf(c, i + 1)
  {
    Index(i, 31);
    BitShift(c, i as bv6);
  }

  lemma {:induction false} OddBit(c: bv32)
    ensures Odd(c) == BitOf(c, 0)
  {
  }

  lemma {:induction false} TopBit(c: bv32, n: nat)
    requires 1 <= n <= 32
    ensures Has(Top(n), c) == BitOf(c, n - 1)
  {
    Index(n - 1, 32);
    BitClear(c, (n - 1) as bv6);
    BitSet(c, (n - 1) as bv6);
    ZeroOrOne(c, (n - 1) as bv6);
  }

  lemma {:induction false} TopBitAside(c: bv32, n: nat, i: nat)
    requires 1 <= n <= 32 && i < n - 1
    ensures BitOf(Xor32(c, Top(n)), i) == BitOf(c, i)
  {
    Index(n - 1, 32);
    Index(i, n - 1);
    BitWithoutTop(c, (n - 1) as bv6, i as bv6);
  }

  /** What is needed of the mask of the top bit. */
  ghost predicate TopOf(top: bv32, n: nat)
    requires 1 <= n <= 32
  {
    && (forall c {:trigger Has(top, c)} :: Has(top, c) == BitOf(c, n - 1))
    && (forall c, i {:trigger BitOf(Xor32(c, top), i)} :: 0 <= i < n - 1 ==> BitOf(Xor32(c, top), i) == BitOf(c, i))
  }

  lemma {:induction false} TopIsTop(n: nat)
    requires 1 <= n <= 32
    ensures TopOf(Top(n), n)
  {
    var top := Top(n);
    forall c {:trigger Has(top, c)} ensures Has(top, c) == BitOf(c, n - 1) {
      TopBit(c, n);
    }
    forall c, i {:trigger BitOf(Xor32(c, top), i)} | 0 <= i < n - 1 ensures BitOf(Xor32(c, top), i) == BitOf(c, i) {
      TopBitAside(c, n, i);
    }
  }

  // ---------------------------------------------------------------------------
  // Coefficients
  // ---------------------------------------------------------------------------

  lemma {:induction false} Shifted(c: bv32, top: bv32, p: bv32, d: bv32)
    requires d == c ^ top
    ensures ((c ^ top) << 1) ^ p == Xor32(Shl32(d), p)
  {
  }

  lemma {:induction false} DoubleSet(p: bv32, top: bv32, c: bv32)
    requires Has(top, c)
    ensures DoubleWord(p, top, c) == Xor32(Shl32(Xor32(c, top)), p)
  {
    Shifted(c, top, p, c ^ top);
  }

  lemma {:induction false} DoubleClear(p: bv32, top: bv32, c: bv32)
    requires !Has(top, c)
    ensures DoubleWord(p, top, c) == Shl32(c)
  {
  }

  lemma {:induction false} DoubleBit(p: bv32, top: bv32, c: bv32, n: nat, i: nat)
    requires 1 <= n <= 32 && i < n && TopOf(top, n)
    ensures BitOf(DoubleWord(p, top, c), i) == ((i > 0 && BitOf(c, i - 1)) != (BitOf(c, n - 1) && BitOf(p, i)))
  {
    if Has(top, c) {
      DoubleSet(p, top, c);
      var d := Xor32(c, top);
      XorBit(Shl32(d), p, i);
      ShlBit(d, i);
      assert i > 0 ==> BitOf(Xor32(c, top), i - 1) == BitOf(c, i - 1);
    } else {
      DoubleClear(p, top, c);
      ShlBit(c, i);
    }
  }

  lemma {:induction false} DoubleAt(low: seq<bool>, c: seq<bool>, i: nat)
    requires |low| == |c| && i < |c|
    ensures Double(low, c)[i] == ((i > 0 && c[i - 1]) != (c[|c| - 1] && low[i]))
  {
  }

  lemma {:induction false} CoefDouble(p: bv32, top: bv32, c: bv32, n: nat)
    requires 1 <= n <= 32 && TopOf(top, n)
    ensures Coef(DoubleWord(p, top, c), n) == Double(Coef(p, n), Coef(c, n))
  {
    forall i | 0 <= i < n ensures Coef(DoubleWord(p, top, c), n)[i] == Double(Coef(p, n), Coef(c, n))[i] {
      DoubleAt(Coef(p, n), Coef(c, n), i);
      DoubleBit(p, top, c, n, i);
    }
  }

  lemma {:induction false} CoefXor(c: bv32, d: bv32, n: nat)
    requires n <= 32
    ensures Coef(Xor32(c, d), n) == Sum(Coef(c, n), Coef(d, n))
  {
    forall i | 0 <= i < n ensures Coef(Xor32(c, d), n)[i] == Sum(Coef(c, n), Coef(d, n))[i] {
      XorBit(c, d, i);
    }
  }

  lemma {:induction false} AddSet(a: bv32, acc: bv32, c: bv32)
    ensures AddWord(a, acc, c) == if Odd(a) then Xor32(acc, c) else acc
  {
  }

  lemma {:induction false} CoefAdd(a: bv32, acc: bv32, c: bv32, n: nat)
    requires n <= 32
    ensures Coef(AddWord(a, acc, c), n) == Sum(Coef(acc, n), Weighted(Odd(a), Coef(c, n)))
  {
    AddSet(a, acc, c);
    if Odd(a) {
      CoefXor(acc, c, n);
    } else {
      SumClear(Coef(acc, n));
    }
  }

  lemma {:induction false} CoefHalf(a: bv32, k: nat)
    requires 1 <= k <= 32
    ensures Coef(a, k)[0] == Odd(a) && Coef(a, k)[1..] == Coef(Shr32(a), k - 1)
  {
    OddBit(a);
    forall i | 0 <= i < k - 1 ensures Coef(a, k)[1..][i] == Coef(Shr32(a), k - 1)[i] {
      ShrBit(a, i);
    }
  }

  lemma {:induction false} CoefZero(n: nat)
    requires n <= 32
    ensures Coef(0, n) == Clear(n)
  {
    forall i | 0 <= i < n ensures !Coef(0, n)[i] {
      Index(i, 32);
      ZeroBit(i as bv6);
    }
  }

  /** One turn of the product, on the coefficients. */
  lemma {:induction false} MulTurn(p: bv32, top: bv32, a: bv32, b: bv32, acc: bv32, k: nat, n: nat)
    requires 1 <= n <= 32 && 1 <= k <= 32 && TopOf(top, n)
    ensures MulAdd(Coef(p, n), Coef(a, k), Coef(b, n), Coef(acc, n))
         == MulAdd(Coef(p, n), Coef(Shr32(a), k - 1), Coef(DoubleWord(p, top, b), n), Coef(AddWord(a, acc, b), n))
  {
    CoefHalf(a, k);
    CoefDouble(p, top, b, n);
    CoefAdd(a, acc, b, n);
  }

  lemma {:induction false} CoefMul(p: bv32, top: bv32, a: bv32, b: bv32, acc: bv32, k: nat, n: nat)
    requires 1 <= n <= 32 && k <= 32 && TopOf(top, n)
    ensures Coef(MulWord(p, top, a, b, acc, k), n) == MulAdd(Coef(p, n), Coef(a, k), Coef(b, n), Coef(acc, n))
    decreases k
  {
    var a1, b1, c1 := Shr32(a), DoubleWord(p, top, b), AddWord(a, acc, b);
    var a2, b2, c2 := Shr32(a1), DoubleWord(p, top, b1), AddWord(a1, c1, b1);
    var a3, b3, c3 := Shr32(a2), DoubleWord(p, top, b2), AddWord(a2, c2, b2);
    var a4, b4, c4 := Shr32(a3), DoubleWord(p, top, b3), AddWord(a3, c3, b3);
    if k >= 1 {
      MulTurn(p, top, a, b, acc, k, n);
    }
    if k >= 2 {
      MulTurn(p, top, a1, b1, c1, k - 1, n);
    }
    if k >= 3 {
      MulTurn(p, top, a2, b2, c2, k - 2, n);
    }
    if k >= 4 {
      MulTurn(p, top, a3, b3, c3, k - 3, n);
      CoefMul(p, top, a4, b4, c4, k - 4, n);
    }
  }

  // ---------------------------------------------------------------------------
  // Certificates
  // ---------------------------------------------------------------------------

  function Unit32(i: nat): bv32
    requires i < 32
  {
    1 << i
  }

  lemma {:induction false} BitUnit(t: bv6, j: bv6)
    requires t < 32 && j < 32
    ensures (((1 as bv32) << t) >> j) & 1 == 1 <==> j == t
  {
  }

  lemma {:induction false} IndexEqual(i: nat, j: nat)
    requires i < 32 && j < 32
    ensures i as bv6 == j as bv6 <==> i == j
  {
    if i < j {
      Index(i, j);
    } else if j < i {
      Index(j, i);
    }
  }

  lemma {:induction false} CoefUnit(t: nat, n: nat)
    requires t < n <= 32
    ensures Coef(Unit32(t), n) == UnitOf(t, n)
  {
    forall i | 0 <= i < n ensures Coef(Unit32(t), n)[i] == UnitOf(t, n)[i] {
      Index(t, 32);
      Index(i, 32);
      IndexEqual(i, t);
      BitUnit(t as bv6, i as bv6);
    }
  }

  /** The polynomial of the table as a word. */
  function LowWord(exps: seq<nat>, n: nat): bv32
    requires n <= 32 && InRange(exps, n)
  {
    if exps == [] then 0 else Xor32(Unit32(n - exps[0]), LowWord(exps[1..], n))
  }

  lemma {:induction false} CoefLow(exps: seq<nat>, n: nat)
    requires n <= 32 && InRange(exps, n)
    ensures Coef(LowWord(exps, n), n) == LowOf(exps, n)
  {
    if exps == [] {
      CoefZero(n);
    } else {
      CoefLow(exps[1..], n);
      CoefXor(Unit32(n - exps[0]), LowWord(exps[1..], n), n);
      CoefUnit(n - exps[0], n);
    }
  }

  /** `p` and `top` are the words for length `n`. */
  ghost predicate Words(n: nat, p: bv32, top: bv32) {
    && 2 <= n <= 32 && top == Top(n) && InRange(polynomials[n], n) && p == LowWord(polynomials[n], n)
  }

  lemma {:induction false} LowStep(e: nat, rest: seq<nat>, n: nat, w: bv32)
    requires 1 <= e <= n <= 32 && InRange(rest, n) && LowWord(rest, n) == w
    ensures InRange([e] + rest, n) && LowWord([e] + rest, n) == Xor32(Unit32(n - e), w)
  {
    assert ([e] + rest)[1..] == rest;
  }

  /** The word for two exponents. */
  lemma {:induction false} LowTwo(n: nat, a: nat, b: nat, w: bv32)
    requires 1 <= b < a <= n <= 32 && w == Xor32(Unit32(n - b), 0)
    ensures InRange([a, b], n) && LowWord([a, b], n) == Xor32(Unit32(n - a), w)
  {
    LowStep(b, [], n, 0);
    assert [b] + [] == [b];
    LowStep(a, [b], n, w);
    assert [a] + [b] == [a, b];
  }

  /** The word for four exponents. */
  lemma {:induction false} LowFour(n: nat, a: nat, b: nat, c: nat, d: nat, w: bv32)
    requires 1 <= d < c < b < a <= n <= 32 && w == Xor32(Unit32(n - b), Xor32(Unit32(n - c), Xor32(Unit32(n - d), 0)))
    ensures InRange([a, b, c, d], n) && LowWord([a, b, c, d], n) == Xor32(Unit32(n - a), w)
  {
    LowTwo(n, c, d, Xor32(Unit32(n - d), 0));
    LowStep(b, [c, d], n, Xor32(Unit32(n - c), Xor32(Unit32(n - d), 0)));
    assert [b] + [c, d] == [b, c, d];
    LowStep(a, [b, c, d], n, w);
    assert [a] + [b, c, d] == [a, b, c, d];
  }

  /** The polynomial `c` acts as `j` edges of the register of length `n`. */
  ghost predicate Leads(n: nat, c: bv32, j: nat) { n <= 32 && Stands(Feedback(n), Coef(c, n), j) }

  /** Below the length the powers are single coefficients. */
  lemma {:induction false} LeadsPower(n: nat, c: bv32, j: nat)
    requires 2 <= n <= 32 && j < n && c == Unit32(j)
    ensures Leads(n, c, j)
  {
    var f := Feedback(n);
    CoefUnit(j, n);
    FeedbackLinear(n);
    forall v: seq<bool> {:trigger Act(f, UnitOf(j, n), v)} | |v| == n
      ensures Act(f, UnitOf(j, n), v) == Iterate(f, v, j)
    {
      ActUnit(f, j, n, v);
    }
  }

  /** What such words are good for. */
  ghost predicate Usable(f: Feed, n: nat, p: bv32, top: bv32) {
    1 <= n <= 32 && Linear(f, n) && Reduces(f, Coef(p, n)) && TopOf(top, n)
  }

  lemma {:induction false} WordsUsable(n: nat, p: bv32, top: bv32)
    requires Words(n, p, top)
    ensures Usable(Feedback(n), n, p, top)
  {
    TableReduces(n);
    CoefLow(polynomials[n], n);
    FeedbackLinear(n);
    TopIsTop(n);
  }

  lemma {:induction false} StandsOn(
    f: Feed, n: nat, p: bv32, top: bv32, a: bv32, j: nat, b: bv32, k: nat, c: bv32)
    requires Usable(f, n, p, top) && c == MulWord(p, top, a, b, 0, n)
    requires Stands(f, Coef(a, n), j) && Stands(f, Coef(b, n), k)
    ensures Stands(f, Coef(c, n), j + k)
  {
    CoefMul(p, top, a, b, 0, n, n);
    CoefZero(n);
    ProductStands(f, Coef(p, n), Coef(a, n), j, Coef(b, n), k);
  }

  /** Any account of which polynomials lead how many edges on. */
  type Leading = (bv32, nat) -> bool

  /** `c` is the product of `a` and `b`, which lead `j` and `k` edges on. */
  predicate Times(n: nat, p: bv32, top: bv32, a: bv32, j: nat, b: bv32, k: nat, c: bv32) {
    c == MulWord(p, top, a, b, 0, n)
  }

  /** It contains every product of two that it contains. */
  ghost predicate Closed(n: nat, p: bv32, top: bv32, leads: Leading) {
    forall a: bv32, j: nat, b: bv32, k: nat, c: bv32 {:trigger Times(n, p, top, a, j, b, k, c)} ::
      leads(a, j) && leads(b, k) && Times(n, p, top, a, j, b, k, c) ==> leads(c, j + k)
  }

  ghost function LeadsOf(n: nat): Leading { (c: bv32, j: nat) => Leads(n, c, j) }

  lemma {:induction false} UsableClosed(f: Feed, n: nat, p: bv32, top: bv32, leads: Leading)
    requires Usable(f, n, p, top) && forall c, j :: leads(c, j) <==> Stands(f, Coef(c, n), j)
    ensures Closed(n, p, top, leads)
  {
    forall a: bv32, j: nat, b: bv32, k: nat, c: bv32 {:trigger Times(n, p, top, a, j, b, k, c)}
      | leads(a, j) && leads(b, k) && Times(n, p, top, a, j, b, k, c)
      ensures leads(c, j + k)
    {
      StandsOn(f, n, p, top, a, j, b, k, c);
    }
  }

  lemma {:induction false} LeadsClosed(n: nat, p: bv32, top: bv32)
    requires Words(n, p, top)
    ensures Closed(n, p, top, LeadsOf(n))
  {
    WordsUsable(n, p, top);
    UsableClosed(Feedback(n), n, p, top, LeadsOf(n));
  }

  /** A polynomial other than one does not lead from the word with only its newest bit set back to it. */
  lemma {:induction false} NotBack(n: nat, c: bv32, j: nat, i: nat)
    requires 2 <= n <= 32 && Leads(n, c, j) && i < n && BitOf(c, i) != (i == 0)
    ensures !Returns(n, j)
  {
    var f, e := Feedback(n), First(n);
    FeedbackLinear(n);
    assert Coef(c, n)[i] != UnitOf(0, n)[i];
    assert Act(f, Coef(c, n), e) == Iterate(f, e, j);
    if Returns(n, j) {
      BackOnlyByOne(f, Coef(c, n));
      assert false;
    }
  }

  lemma {:induction false} NotBackEither(n: nat, c: bv32, j: nat, i: nat, rest: seq<nat>)
    requires 2 <= n <= 32 && Leads(n, c, j) && i < n && BitOf(c, i) != (i == 0) && NoneReturns(n, rest)
    ensures NoneReturns(n, [j] + rest)
  {
    NotBack(n, c, j, i);
  }

  lemma {:induction false} SameLead(f: Feed, c: seq<bool>, j: nat, k: nat, v: seq<bool>)
    requires |v| == |c| > 0 && Stands(f, c, j) && Stands(f, c, k)
    ensures Iterate(f, v, j) == Iterate(f, v, k)
  {
    assert Act(f, c, v) == Iterate(f, v, j);
  }

  lemma {:induction false} OneLess(f: Feed, v: seq<bool>, m: nat)
    requires v != [] && m > 0 && Injective(f, |v|) && Iterate(f, v, 1) == Iterate(f, v, m)
    ensures Iterate(f, v, m - 1) == v
  {
    Cancel(f, v, 1, m);
  }

  /** If m edges are one edge, m - 1 edges are none. */
  lemma {:induction false} Closes(n: nat, m: nat)
    requires 2 <= n <= 32 && m > 0 && Leads(n, 0x2, m)
    ensures Returns(n, m - 1)
  {
    assert Unit32(1) == 0x2;
    LeadsPower(n, 0x2, 1);
    SameLead(Feedback(n), Coef(0x2, n), 1, m, First(n));
    LfsrReversible(n);
    OneLess(Feedback(n), First(n), m);
  }
}
