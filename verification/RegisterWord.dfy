/**
 The 32-bit words of the shift register (src/shift_register_modulator.cpp): a word is its bits, the least
 significant first, so in the register the bit entered last comes first.  The operators of the source are
 defined on words, and the number a word spells ties masks and tables to their constants.
 */
module RegisterWord {

  type Bits32 = w: seq<bool> | |w| == 32 witness seq(32, i => false)

  function Pow2(n: nat): (p: nat)
    ensures p >= 1
  {
    if n == 0 then 1 else 2 * Pow2(n - 1)
  }

  /** The number that bits spell. */
  function Value(s: seq<bool>): nat { if s == [] then 0 else (if s[0] then 1 else 0) + 2 * Value(s[1..]) }

  /** The `n` low bits of a number. */
  function ToBits(m: nat, n: nat): (r: seq<bool>)
    ensures |r| == n
  {
    if n == 0 then [] else [m % 2 == 1] + ToBits(m / 2, n - 1)
  }

  function Number(m: nat): Bits32 { ToBits(m, 32) }

  function And(x: Bits32, y: Bits32): Bits32 { seq(32, i requires 0 <= i < 32 => x[i] && y[i]) }

  function Or(x: Bits32, y: Bits32): Bits32 { seq(32, i requires 0 <= i < 32 => x[i] || y[i]) }

  function Xor(x: Bits32, y: Bits32): Bits32 { seq(32, i requires 0 <= i < 32 => x[i] != y[i]) }

  function ShiftLeft(x: Bits32): Bits32 { [false] + x[..31] }

  function ShiftRight(x: Bits32, k: nat): Bits32
    requires k <= 32
  {
    seq(32, i requires 0 <= i < 32 => i + k < 32 && x[i + k])
  }

  function Flag(b: bool): Bits32 { seq(32, i => i == 0 && b) }

  /** The word with its low `n` bits set. */
  function Mask(n: nat): Bits32 { seq(32, i => i < n) }

  /** An `n`-bit word. */
  predicate Fits(x: Bits32, n: nat) { forall i :: n <= i < 32 ==> !x[i] }

  lemma {:induction false} ValueBound(s: seq<bool>)
    ensures Value(s) < Pow2(|s|)
  {
    if s != [] {
      ValueBound(s[1..]);
    }
  }

  lemma {:induction false} ValueRoundTrip(s: seq<bool>)
    ensures ToBits(Value(s), |s|) == s
  {
    if s != [] {
      var rest := Value(s[1..]);
      assert Value(s) / 2 == rest && (Value(s) % 2 == 1) == s[0];
      ValueRoundTrip(s[1..]);
    }
  }

  /** Bits are determined by the number they spell. */
  lemma {:induction false} ValueInjective(s: seq<bool>, t: seq<bool>)
    requires |s| == |t| && Value(s) == Value(t)
    ensures s == t
  {
    ValueRoundTrip(s);
    ValueRoundTrip(t);
  }

  lemma {:induction false} ValueZero(s: seq<bool>)
    requires Value(s) == 0
    ensures forall i :: 0 <= i < |s| ==> !s[i]
  {
    if s != [] {
      ValueZero(s[1..]);
      assert forall i :: 1 <= i < |s| ==> s[i] == s[1..][i - 1];
    }
  }

  /** Setting a clear bit adds its power of two. */
  lemma {:induction false} ValueSet(s: seq<bool>, i: nat)
    requires i < |s| && !s[i]
    ensures Value(s[i := true]) == Value(s) + Pow2(i)
  {
    if i == 0 {
      assert s[0 := true][1..] == s[1..];
    } else {
      assert s[i := true][1..] == s[1..][i - 1 := true];
      ValueSet(s[1..], i - 1);
    }
  }

  /** The mask is the source's (1 << n) - 1, all ones for n = 32. */
  lemma {:induction false} MaskValue(n: nat)
    requires n <= 32
    ensures Value(Mask(n)) == Pow2(n) - 1
  {
    if n == 0 {
      ValueClear(Mask(0));
    } else {
      MaskValue(n - 1);
      assert Mask(n) == Mask(n - 1)[n - 1 := true];
      ValueSet(Mask(n - 1), n - 1);
    }
  }

  lemma {:induction false} ValueClear(s: seq<bool>)
    requires forall i :: 0 <= i < |s| ==> !s[i]
    ensures Value(s) == 0
  {
    if s != [] {
      ValueClear(s[1..]);
    }
  }

  // ---------------------------------------------------------------------------
  // The clock edge
  // ---------------------------------------------------------------------------

  /** ((reg << 1) | bit) & mask. */
  function ShiftIn(x: Bits32, b: bool, n: nat): (r: Bits32)
    requires 1 <= n <= 32
    ensures r[..n] == [b] + x[..n - 1] && Fits(r, n)
  {
    And(Or(ShiftLeft(x), Flag(b)), Mask(n))
  }

  lemma {:induction false} FitsEqual(x: Bits32, y: Bits32, n: nat)
    requires n <= 32 && Fits(x, n) && Fits(y, n) && x[..n] == y[..n]
    ensures x == y
  {
    forall i | 0 <= i < 32 ensures x[i] == y[i] {
      if i < n {
        assert x[i] == x[..n][i] && y[i] == y[..n][i];
      }
    }
  }

  // ---------------------------------------------------------------------------
  // Parity
  // ---------------------------------------------------------------------------

  /** x ^= x >> k. */
  function FoldBy(x: Bits32, k: nat): Bits32
    requires k <= 32
  {
    Xor(x, ShiftRight(x, k))
  }

  /** The folded parity of lfsr_new_bit. */
  function Fold(x: Bits32): bool { FoldBy(FoldBy(FoldBy(FoldBy(FoldBy(x, 16), 8), 4), 2), 1)[0] }

  /** Whether an odd number of the bits are set. */
  function Parity(s: seq<bool>): bool { if s == [] then false else s[0] != Parity(s[1..]) }

  lemma {:induction false} ParityXor(a: seq<bool>, b: seq<bool>, c: seq<bool>)
    requires |a| == |b| == |c| && forall i :: 0 <= i < |a| ==> c[i] == (a[i] != b[i])
    ensures Parity(c) == (Parity(a) != Parity(b))
  {
    if a != [] {
      ParityXor(a[1..], b[1..], c[1..]);
    }
  }

  lemma {:induction false} ParityConcat(a: seq<bool>, b: seq<bool>)
    ensures Parity(a + b) == (Parity(a) != Parity(b))
  {
    if a == [] {
      assert a + b == b;
    } else {
      assert (a + b)[1..] == a[1..] + b;
      ParityConcat(a[1..], b);
    }
  }

  /** Folding halves the part of the word that still carries the parity. */
  lemma {:induction false} FoldHalves(x: Bits32, k: nat)
    requires 2 * k <= 32
    ensures Parity(FoldBy(x, k)[..k]) == Parity(x[..2 * k])
  {
    var low, high := x[..k], x[k..2 * k];
    assert x[..2 * k] == low + high;
    ParityConcat(low, high);
    ParityXor(low, high, FoldBy(x, k)[..k]);
  }

  lemma {:induction false} FoldIsParity(x: Bits32)
    ensures Fold(x) == Parity(x)
  {
    var a := FoldBy(x, 16);
    var b := FoldBy(a, 8);
    var c := FoldBy(b, 4);
    var d := FoldBy(c, 2);
    var e := FoldBy(d, 1);
    assert x[..32] == x;
    FoldHalves(x, 16);
    FoldHalves(a, 8);
    FoldHalves(b, 4);
    FoldHalves(c, 2);
    FoldHalves(d, 1);
    assert e[..1] == [e[0]];
    assert Parity([e[0]]) == (e[0] != Parity([]));
  }

  lemma {:induction false} ParityUpdate(s: seq<bool>, i: nat, b: bool)
    requires i < |s|
    ensures Parity(s[i := b]) == (Parity(s) != (b != s[i]))
  {
    if i == 0 {
      assert s[0 := b][1..] == s[1..];
    } else {
      assert s[i := b][1..] == s[1..][i - 1 := b];
      ParityUpdate(s[1..], i - 1, b);
    }
  }

  lemma {:induction false} ParityClear(s: seq<bool>)
    requires forall i :: 0 <= i < |s| ==> !s[i]
    ensures !Parity(s)
  {
    if s != [] {
      ParityClear(s[1..]);
    }
  }

  // ---------------------------------------------------------------------------
  // The tap table
  // ---------------------------------------------------------------------------

  /** lfsr_taps, by register length. */
  const tapTable: seq<nat> := [
    0x0, 0x0, 0x3, 0x6, 0xC, 0x14, 0x30, 0x60, 0xB8, 0x110, 0x240, 0x500, 0xE08, 0x1C80, 0x3802, 0x6000, 0xD008,
    0x12000, 0x20400, 0x72000, 0x90000, 0x140000, 0x300000, 0x420000, 0xE10000, 0x1200000, 0x2000023, 0x4000013,
    0x9000000, 0x14000000, 0x20000029, 0x48000000, 0x80200003]

  /** The exponents of the polynomial documented for each length, without the constant term. */
  const polynomials: seq<seq<nat>> := [
    [], [], [2, 1], [3, 2], [4, 3], [5, 3], [6, 5], [7, 6], [8, 6, 5, 4], [9, 5], [10, 7], [11, 9], [12, 11, 10, 4],
    [13, 12, 11, 8], [14, 13, 12, 2], [15, 14], [16, 15, 13, 4], [17, 14], [18, 11], [19, 18, 17, 14], [20, 17],
    [21, 19], [22, 21], [23, 18], [24, 23, 22, 17], [25, 22], [26, 6, 2, 1], [27, 5, 2, 1], [28, 25], [29, 27],
    [30, 6, 4, 1], [31, 28], [32, 22, 2, 1]]

  function Taps(n: nat): Bits32
    requires n <= 32
  {
    Number(tapTable[n])
  }

  /** Exponents fall, from below `bound` down to at least one. */
  predicate Descending(exps: seq<nat>, bound: nat) {
    exps == [] || (1 <= exps[0] < bound && Descending(exps[1..], exps[0]))
  }

  /** The number with exactly the bits at the exponents set; exponent e is the bit of weight 2^(e-1). */
  function PlaceSum(exps: seq<nat>): nat { if exps == [] then 0 else Pow2(exps[0]) / 2 + PlaceSum(exps[1..]) }

  lemma {:induction false} DescendingBound(exps: seq<nat>, bound: nat)
    requires Descending(exps, bound)
    ensures forall k :: 0 <= k < |exps| ==> 1 <= exps[k] < bound
  {
    if exps != [] {
      DescendingBound(exps[1..], exps[0]);
      assert forall k :: 1 <= k < |exps| ==> exps[k] == exps[1..][k - 1];
    }
  }

  function Places(exps: seq<nat>): Bits32 { seq(32, i => i + 1 in exps) }

  lemma {:induction false} PlacesValue(exps: seq<nat>, bound: nat)
    requires Descending(exps, bound) && bound <= 33
    ensures Value(Places(exps)) == PlaceSum(exps)
  {
    if exps == [] {
      ValueClear(Places(exps));
    } else {
      var e, rest := exps[0], exps[1..];
      PlacesValue(rest, e);
      DescendingBound(rest, e);
      assert forall i :: i in exps <==> i == e || i in rest;
      assert Places(exps) == Places(rest)[e - 1 := true];
      ValueSet(Places(rest), e - 1);
    }
  }

  predicate InRange(exps: seq<nat>, n: nat) { forall k :: 0 <= k < |exps| ==> 1 <= exps[k] <= n }

  /** Exclusive or of the bits at the exponents. */
  function XorAt(bits: seq<bool>, exps: seq<nat>): bool
    requires InRange(exps, |bits|)
  {
    exps != [] && (bits[exps[0] - 1] != XorAt(bits, exps[1..]))
  }

  lemma {:induction false} ParityAtPlaces(x: Bits32, exps: seq<nat>, bound: nat)
    requires Descending(exps, bound) && bound <= 33 && InRange(exps, 32)
    ensures Parity(And(x, Places(exps))) == XorAt(x, exps)
  {
    if exps == [] {
      ParityClear(And(x, Places(exps)));
    } else {
      var e, rest := exps[0], exps[1..];
      ParityAtPlaces(x, rest, e);
      DescendingBound(rest, e);
      var s := And(x, Places(rest));
      assert forall i :: i in exps <==> i == e || i in rest;
      assert And(x, Places(exps)) == s[e - 1 := x[e - 1]];
      ParityUpdate(s, e - 1, x[e - 1]);
    }
  }

  // ---------------------------------------------------------------------------
  // The table agrees with the documented polynomials
  // ---------------------------------------------------------------------------

  lemma {:induction false} Powers()
    ensures Pow2(4) == 0x10 && Pow2(8) == 0x100 && Pow2(12) == 0x1000 && Pow2(16) == 0x1_0000
    ensures Pow2(20) == 0x10_0000 && Pow2(24) == 0x100_0000 && Pow2(28) == 0x1000_0000 && Pow2(32) == 0x1_0000_0000
  {
  }

  /** The mask has exactly the bits of the exponents, the first of which is the length. */
  ghost predicate Spells(exps: seq<nat>, n: nat, mask: nat) {
    exps != [] && exps[0] == n && Descending(exps, n + 1) && PlaceSum(exps) == mask
  }

  ghost predicate Matches(n: nat)
    requires n <= 32
  {
    Spells(polynomials[n], n, tapTable[n])
  }

  lemma {:induction false} TwoTaps(exps: seq<nat>, mask: nat, a: nat, b: nat)
    requires 1 <= b < a && exps == [a, b] && mask == Pow2(a) / 2 + Pow2(b) / 2
    ensures Spells(exps, a, mask)
  {
    assert [a, b][1..] == [b] && [b][1..] == [];
    assert PlaceSum([b]) == Pow2(b) / 2 + PlaceSum([]);
  }

  lemma {:induction false} FourTaps(exps: seq<nat>, mask: nat, a: nat, b: nat, c: nat, d: nat)
    requires 1 <= d < c < b < a && exps == [a, b, c, d]
    requires mask == Pow2(a) / 2 + Pow2(b) / 2 + Pow2(c) / 2 + Pow2(d) / 2
    ensures Spells(exps, a, mask)
  {
    assert [a, b, c, d][1..] == [b, c, d] && [b, c, d][1..] == [c, d] && [c, d][1..] == [d] && [d][1..] == [];
    assert PlaceSum([d]) == Pow2(d) / 2 + PlaceSum([]);
    assert PlaceSum([c, d]) == Pow2(c) / 2 + PlaceSum([d]);
    assert PlaceSum([b, c, d]) == Pow2(b) / 2 + PlaceSum([c, d]);
    assert Descending([d], c) && Descending([c, d], b) && Descending([b, c, d], a);
  }

  lemma {:induction false} Table2To8(n: nat)
    requires 2 <= n <= 8
    ensures Matches(n)
  {
    Powers();
    var exps, mask := polynomials[n], tapTable[n];
    match n {
      case 2 => TwoTaps(exps, mask, 2, 1);
      case 3 => TwoTaps(exps, mask, 3, 2);
      case 4 => TwoTaps(exps, mask, 4, 3);
      case 5 => TwoTaps(exps, mask, 5, 3);
      case 6 => TwoTaps(exps, mask, 6, 5);
      case 7 => TwoTaps(exps, mask, 7, 6);
      case 8 => FourTaps(exps, mask, 8, 6, 5, 4);
    }
  }

  lemma {:induction false} Table9To16(n: nat)
    requires 9 <= n <= 16
    ensures Matches(n)
  {
    Powers();
    var exps, mask := polynomials[n], tapTable[n];
    match n {
      case 9 => TwoTaps(exps, mask, 9, 5);
      case 10 => TwoTaps(exps, mask, 10, 7);
      case 11 => TwoTaps(exps, mask, 11, 9);
      case 12 => FourTaps(exps, mask, 12, 11, 10, 4);
      case 13 => FourTaps(exps, mask, 13, 12, 11, 8);
      case 14 => FourTaps(exps, mask, 14, 13, 12, 2);
      case 15 => TwoTaps(exps, mask, 15, 14);
      case 16 => FourTaps(exps, mask, 16, 15, 13, 4);
    }
  }

  lemma {:induction false} Table17To24(n: nat)
    requires 17 <= n <= 24
    ensures Matches(n)
  {
    Powers();
    var exps, mask := polynomials[n], tapTable[n];
    match n {
      case 17 => TwoTaps(exps, mask, 17, 14);
      case 18 => TwoTaps(exps, mask, 18, 11);
      case 19 => FourTaps(exps, mask, 19, 18, 17, 14);
      case 20 => TwoTaps(exps, mask, 20, 17);
      case 21 => TwoTaps(exps, mask, 21, 19);
      case 22 => TwoTaps(exps, mask, 22, 21);
      case 23 => TwoTaps(exps, mask, 23, 18);
      case 24 => FourTaps(exps, mask, 24, 23, 22, 17);
    }
  }

  lemma {:induction false} Table25To32(n: nat)
    requires 25 <= n <= 32
    ensures Matches(n)
  {
    Powers();
    var exps, mask := polynomials[n], tapTable[n];
    match n {
      case 25 => TwoTaps(exps, mask, 25, 22);
      case 26 => FourTaps(exps, mask, 26, 6, 2, 1);
      case 27 => FourTaps(exps, mask, 27, 5, 2, 1);
      case 28 => TwoTaps(exps, mask, 28, 25);
      case 29 => TwoTaps(exps, mask, 29, 27);
      case 30 => FourTaps(exps, mask, 30, 6, 4, 1);
      case 31 => TwoTaps(exps, mask, 31, 28);
      case 32 => FourTaps(exps, mask, 32, 22, 2, 1);
    }
  }

  /** Each tap mask spells exactly the documented polynomial, whose leading exponent is the register length. */
  lemma {:induction false} TableMatches(n: nat)
    requires 2 <= n <= 32
    ensures Matches(n)
  {
    if n <= 8 {
      Table2To8(n);
    } else if n <= 16 {
      Table9To16(n);
    } else if n <= 24 {
      Table17To24(n);
    } else {
      Table25To32(n);
    }
  }

  lemma {:induction false} TapsArePlaces(n: nat)
    requires 2 <= n <= 32
    ensures Matches(n) && Taps(n) == Places(polynomials[n])
  {
    TableMatches(n);
    var w := Places(polynomials[n]);
    PlacesValue(polynomials[n], n + 1);
    ValueRoundTrip(w);
  }

  /** The feedback bit of lfsr mode is the exclusive or of the bits the polynomial names. */
  lemma {:induction false} FeedbackIsPolynomial(x: Bits32, n: nat)
    requires 2 <= n <= 32
    ensures Matches(n) && InRange(polynomials[n], n)
    ensures Fold(And(x, Taps(n))) == XorAt(x[..n], polynomials[n])
  {
    TapsArePlaces(n);
    var exps := polynomials[n];
    DescendingBound(exps, n + 1);
    FoldIsParity(And(x, Taps(n)));
    ParityAtPlaces(x, exps, n + 1);
    XorAtPrefix(x, exps, n);
  }

  /** Only the bits at the exponents matter. */
  lemma {:induction false} XorAtPrefix(bits: seq<bool>, exps: seq<nat>, n: nat)
    requires n <= |bits| && InRange(exps, n)
    ensures XorAt(bits, exps) == XorAt(bits[..n], exps)
  {
    if exps != [] {
      XorAtPrefix(bits, exps[1..], n);
    }
  }
}
