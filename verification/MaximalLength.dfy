/**
 Many steps of the shift register in lfsr mode at once.  The step is linear over bits, so a polynomial in the step,
 given by its coefficients, can stand for any number of steps; products of polynomials, taken modulo the relation that
 the feedback gives, add up the steps they stand for.
 */
module MaximalLength {
  import opened RegisterWord
  import opened RegisterFeedback

  // ---------------------------------------------------------------------------
  // The step is linear
  // ---------------------------------------------------------------------------

  function Sum(a: seq<bool>, b: seq<bool>): (c: seq<bool>)
    requires |a| == |b|
    ensures |c| == |a|
  {
    seq(|a|, i requires 0 <= i < |a| => a[i] != b[i])
  }

  function Clear(n: nat): (c: seq<bool>)
    ensures |c| == n
  {
    seq(n, i => false)
  }

  ghost predicate Linear(f: Feed, n: nat) {
    forall a: seq<bool>, b: seq<bool> {:trigger Sum(a, b)} :: |a| == |b| == n ==> f(Sum(a, b)) == (f(a) != f(b))
  }

  lemma {:induction false} XorAtLinear(a: seq<bool>, b: seq<bool>, exps: seq<nat>)
    requires |a| == |b| && InRange(exps, |a|)
    ensures XorAt(Sum(a, b), exps) == (XorAt(a, exps) != XorAt(b, exps))
  {
    if exps != [] {
      XorAtLinear(a, b, exps[1..]);
    }
  }

  lemma {:induction false} FeedbackLinear(n: nat)
    ensures Linear(Feedback(n), n)
  {
    var f := Feedback(n);
    forall a: seq<bool>, b: seq<bool> {:trigger Sum(a, b)} | |a| == |b| == n ensures f(Sum(a, b)) == (f(a) != f(b)) {
      if 2 <= n <= 32 && InRange(polynomials[n], n) {
        XorAtLinear(a, b, polynomials[n]);
      }
    }
  }

  lemma {:induction false} PushLinear(f: Feed, a: seq<bool>, b: seq<bool>)
    requires |a| == |b| > 0 && Linear(f, |a|)
    ensures Push(f, Sum(a, b)) == Sum(Push(f, a), Push(f, b))
  {
  }

  lemma {:induction false} PushClear(f: Feed, n: nat)
    requires n > 0 && Linear(f, n)
    ensures Push(f, Clear(n)) == Clear(n)
  {
    assert Sum(Clear(n), Clear(n)) == Clear(n);
  }

  // ---------------------------------------------------------------------------
  // Polynomials in the step
  // ---------------------------------------------------------------------------

  function Weighted(b: bool, v: seq<bool>): (r: seq<bool>)
    ensures |r| == |v|
  {
    if b then v else Clear(|v|)
  }

  /** The polynomial with coefficients `c`, constant term first, applied to a register. */
  function Act(f: Feed, c: seq<bool>, v: seq<bool>): (r: seq<bool>)
    requires v != []
    ensures |r| == |v|
    decreases |c|
  {
    if c == [] then Clear(|v|) else Sum(Weighted(c[0], v), Push(f, Act(f, c[1..], v)))
  }

  lemma {:induction false} SumSwap(x: seq<bool>, y: seq<bool>, p: seq<bool>, q: seq<bool>)
    requires |x| == |y| == |p| == |q|
    ensures Sum(Sum(x, y), Sum(p, q)) == Sum(Sum(x, p), Sum(y, q))
  {
  }

  lemma {:induction false} SumClear(v: seq<bool>)
    ensures Sum(v, Clear(|v|)) == v && Sum(Clear(|v|), v) == v
  {
  }

  lemma {:induction false} TimesXor(a: bool, b: bool, v: seq<bool>)
    ensures Weighted(a != b, v) == Sum(Weighted(a, v), Weighted(b, v))
  {
  }

  lemma {:induction false} ActSum(f: Feed, c: seq<bool>, d: seq<bool>, v: seq<bool>)
    requires v != [] && Linear(f, |v|) && |c| == |d|
    ensures Act(f, Sum(c, d), v) == Sum(Act(f, c, v), Act(f, d, v))
    decreases |c|
  {
    if c == [] {
      SumClear(Clear(|v|));
    } else {
      assert Sum(c, d)[0] == (c[0] != d[0]) && Sum(c, d)[1..] == Sum(c[1..], d[1..]);
      ActSum(f, c[1..], d[1..], v);
      var p, q := Act(f, c[1..], v), Act(f, d[1..], v);
      PushLinear(f, p, q);
      TimesXor(c[0], d[0], v);
      SumSwap(Weighted(c[0], v), Weighted(d[0], v), Push(f, p), Push(f, q));
    }
  }

  /** A polynomial in the step commutes with the step. */
  lemma {:induction false} ActPush(f: Feed, c: seq<bool>, v: seq<bool>)
    requires v != [] && Linear(f, |v|)
    ensures Push(f, Act(f, c, v)) == Act(f, c, Push(f, v))
    decreases |c|
  {
    PushClear(f, |v|);
    if c != [] {
      ActPush(f, c[1..], v);
      PushLinear(f, Weighted(c[0], v), Push(f, Act(f, c[1..], v)));
      assert Push(f, Weighted(c[0], v)) == Weighted(c[0], Push(f, v));
    }
  }

  lemma {:induction false} ActClear(f: Feed, n: nat, v: seq<bool>)
    requires v != [] && Linear(f, |v|)
    ensures Act(f, Clear(n), v) == Clear(|v|)
  {
    if n > 0 {
      assert Clear(n)[1..] == Clear(n - 1);
      ActClear(f, n - 1, v);
      PushClear(f, |v|);
      SumClear(Clear(|v|));
    }
  }

  /** A coefficient at the end stands for that many steps. */
  lemma {:induction false} ActSnoc(f: Feed, c: seq<bool>, b: bool, v: seq<bool>)
    requires v != [] && Linear(f, |v|)
    ensures Act(f, c + [b], v) == Sum(Act(f, c, v), Weighted(b, Iterate(f, v, |c|)))
    decreases |c|
  {
    if c == [] {
      assert (c + [b])[1..] == [];
      PushClear(f, |v|);
      SumClear(Weighted(b, v));
    } else {
      assert (c + [b])[0] == c[0] && (c + [b])[1..] == c[1..] + [b];
      ActSnoc(f, c[1..], b, v);
      var p, q := Act(f, c[1..], v), Weighted(b, Iterate(f, v, |c| - 1));
      PushLinear(f, p, q);
      PushClear(f, |v|);
      assert Push(f, q) == Weighted(b, Iterate(f, v, |c|));
      SumAssoc(Weighted(c[0], v), Push(f, p), Push(f, q));
    }
  }

  lemma {:induction false} SumAssoc(a: seq<bool>, b: seq<bool>, c: seq<bool>)
    requires |a| == |b| == |c|
    ensures Sum(a, Sum(b, c)) == Sum(Sum(a, b), c)
  {
  }

  /** A shifted polynomial acts one step later. */
  lemma {:induction false} ActShift(f: Feed, c: seq<bool>, v: seq<bool>)
    requires v != []
    ensures Act(f, [false] + c, v) == Push(f, Act(f, c, v))
  {
    assert ([false] + c)[1..] == c;
    SumClear(Push(f, Act(f, c, v)));
  }

  // ---------------------------------------------------------------------------
  // Products modulo the feedback relation
  // ---------------------------------------------------------------------------

  /** `low` are the lower coefficients of a polynomial that acts as n steps. */
  ghost predicate Reduces(f: Feed, low: seq<bool>) {
    forall v: seq<bool> {:trigger Act(f, low, v)} :: |v| == |low| > 0 ==> Act(f, low, v) == Iterate(f, v, |low|)
  }

  /** One power more, reduced. */
  function Double(low: seq<bool>, c: seq<bool>): (r: seq<bool>)
    requires |low| == |c| > 0
    ensures |r| == |c|
  {
    Sum([false] + c[..|c| - 1], Weighted(c[|c| - 1], low))
  }

  lemma {:induction false} ActTimes(f: Feed, b: bool, c: seq<bool>, v: seq<bool>)
    requires v != [] && Linear(f, |v|)
    ensures Act(f, Weighted(b, c), v) == Weighted(b, Act(f, c, v))
  {
    if !b {
      ActClear(f, |c|, v);
    }
  }

  lemma {:induction false} ActDouble(f: Feed, low: seq<bool>, c: seq<bool>, v: seq<bool>)
    requires |v| == |low| == |c| > 0 && Linear(f, |v|) && Reduces(f, low)
    ensures Act(f, Double(low, c), v) == Push(f, Act(f, c, v))
  {
    var n := |v|;
    var d, b := c[..n - 1], c[n - 1];
    ActSum(f, [false] + d, Weighted(b, low), v);
    ActShift(f, d, v);
    ActTimes(f, b, low, v);
    assert c == d + [b];
    ActSnoc(f, d, b, v);
    PushLinear(f, Act(f, d, v), Weighted(b, Iterate(f, v, n - 1)));
    PushClear(f, n);
    assert Push(f, Weighted(b, Iterate(f, v, n - 1))) == Weighted(b, Iterate(f, v, n));
  }

  /** `acc` plus the product of `a` and `b`. */
  function MulAdd(low: seq<bool>, a: seq<bool>, b: seq<bool>, acc: seq<bool>): (r: seq<bool>)
    requires |low| == |b| == |acc| > 0
    ensures |r| == |acc|
    decreases |a|
  {
    if a == [] then acc else MulAdd(low, a[1..], Double(low, b), Sum(acc, Weighted(a[0], b)))
  }

  /** A product acts as one factor after the other. */
  lemma {:induction false} ActMulAdd(f: Feed, low: seq<bool>, a: seq<bool>, b: seq<bool>, acc: seq<bool>, v: seq<bool>)
    requires |v| == |low| == |b| == |acc| > 0 && Linear(f, |v|) && Reduces(f, low)
    ensures Act(f, MulAdd(low, a, b, acc), v) == Sum(Act(f, acc, v), Act(f, a, Act(f, b, v)))
    decreases |a|
  {
    var w := Act(f, b, v);
    if a == [] {
      SumClear(Act(f, acc, v));
    } else {
      ActMulAdd(f, low, a[1..], Double(low, b), Sum(acc, Weighted(a[0], b)), v);
      ActDouble(f, low, b, v);
      ActPush(f, a[1..], w);
      ActSum(f, acc, Weighted(a[0], b), v);
      ActTimes(f, a[0], b, v);
      SumAssoc(Act(f, acc, v), Weighted(a[0], w), Push(f, Act(f, a[1..], w)));
    }
  }

  /** `c` acts as `j` steps. */
  ghost predicate Stands(f: Feed, c: seq<bool>, j: nat) {
    forall v: seq<bool> {:trigger Act(f, c, v)} :: |v| == |c| > 0 ==> Act(f, c, v) == Iterate(f, v, j)
  }

  lemma {:induction false} IterateAdd(f: Feed, bits: seq<bool>, a: nat, b: nat)
    requires bits != []
    ensures Iterate(f, bits, a + b) == Iterate(f, Iterate(f, bits, a), b)
  {
    if b > 0 {
      IterateAdd(f, bits, a, b - 1);
    }
  }

  lemma {:induction false} ProductStands(f: Feed, low: seq<bool>, a: seq<bool>, j: nat, b: seq<bool>, k: nat)
    requires |low| == |a| == |b| > 0 && Linear(f, |low|) && Reduces(f, low) && Stands(f, a, j) && Stands(f, b, k)
    ensures Stands(f, MulAdd(low, a, b, Clear(|low|)), j + k)
  {
    var n := |low|;
    var c := MulAdd(low, a, b, Clear(n));
    forall v: seq<bool> {:trigger Act(f, c, v)} | |v| == n ensures Act(f, c, v) == Iterate(f, v, j + k) {
      ActMulAdd(f, low, a, b, Clear(n), v);
      ActClear(f, n, v);
      var w := Act(f, b, v);
      SumClear(Act(f, a, w));
      assert w == Iterate(f, v, k);
      assert Act(f, a, w) == Iterate(f, w, j);
      IterateAdd(f, v, k, j);
    }
  }

  // ---------------------------------------------------------------------------
  // The relation that the feedback gives
  // ---------------------------------------------------------------------------

  /** The bits entered in the first `k` edges, the last one first. */
  function Fed(f: Feed, v: seq<bool>, k: nat): (r: seq<bool>)
    requires v != []
    ensures |r| == k
  {
    if k == 0 then [] else [f(Iterate(f, v, k - 1))] + Fed(f, v, k - 1)
  }

  lemma {:induction false} IterateIsFed(f: Feed, v: seq<bool>, k: nat)
    requires v != []
    ensures Iterate(f, v, k) == (Fed(f, v, k) + v)[..|v|]
  {
    if k == 0 {
      assert [] + v == v;
    } else {
      IterateIsFed(f, v, k - 1);
    }
  }

  lemma {:induction false} FedSuffix(f: Feed, v: seq<bool>, j: nat, k: nat)
    requires v != [] && j <= k
    ensures Fed(f, v, k)[k - j..] == Fed(f, v, j)
  {
    if j < k {
      FedSuffix(f, v, j, k - 1);
    }
  }

  /** Bit `i` after n - e edges is bit i + e of everything entered in n edges and before. */
  lemma {:induction false} IterateAt(f: Feed, v: seq<bool>, e: nat, i: nat)
    requires i < |v| && e <= |v|
    ensures Iterate(f, v, |v| - e)[i] == (Fed(f, v, |v|) + v)[i + e]
  {
    var n := |v|;
    IterateIsFed(f, v, n - e);
    FedSuffix(f, v, n - e, n);
    var all, part := Fed(f, v, n), Fed(f, v, n - e);
    assert all[e..] == part;
    if i < n - e {
      assert all[i + e] == all[e..][i];
    }
  }

  lemma {:induction false} SameBit(f: Feed, v: seq<bool>, e: nat, i: nat)
    requires i < |v| && 1 <= e <= |v|
    ensures Iterate(f, v, |v| - e)[i] == Iterate(f, v, |v| - 1 - i)[e - 1]
  {
    IterateAt(f, v, e, i);
    IterateAt(f, v, i + 1, e - 1);
  }

  lemma {:induction false} FedAt(f: Feed, v: seq<bool>, k: nat, i: nat)
    requires v != [] && i < k
    ensures Fed(f, v, k)[i] == f(Iterate(f, v, k - 1 - i))
  {
    if i > 0 {
      FedAt(f, v, k - 1, i - 1);
    }
  }

  /** The sum of the registers n - e edges on, over the exponents e. */
  function StepSum(f: Feed, v: seq<bool>, exps: seq<nat>): (r: seq<bool>)
    requires v != [] && InRange(exps, |v|)
    ensures |r| == |v|
  {
    if exps == [] then Clear(|v|) else Sum(Iterate(f, v, |v| - exps[0]), StepSum(f, v, exps[1..]))
  }

  /** Bit i of that sum is the feedback of the register n - 1 - i edges on. */
  lemma {:induction false} StepSumAt(f: Feed, v: seq<bool>, exps: seq<nat>, i: nat)
    requires i < |v| && InRange(exps, |v|)
    ensures StepSum(f, v, exps)[i] == XorAt(Iterate(f, v, |v| - 1 - i), exps)
  {
    if exps != [] {
      StepSumAt(f, v, exps[1..], i);
      SameBit(f, v, exps[0], i);
    }
  }

  /** n edges are the sum of n - e edges over the exponents of the polynomial. */
  lemma {:induction false} FeedbackRelation(n: nat, v: seq<bool>)
    requires 2 <= n <= 32 && |v| == n
    ensures InRange(polynomials[n], n) && Iterate(Feedback(n), v, n) == StepSum(Feedback(n), v, polynomials[n])
  {
    var f := Feedback(n);
    LeadingTap(n);
    DescendingBound(polynomials[n], n + 1);
    forall i | 0 <= i < n ensures Iterate(f, v, n)[i] == StepSum(f, v, polynomials[n])[i] {
      StepSumAt(f, v, polynomials[n], i);
      EnteredAt(f, v, i);
    }
  }

  /** After n edges bit i is what was fed n - 1 - i edges on. */
  lemma {:induction false} EnteredAt(f: Feed, v: seq<bool>, i: nat)
    requires i < |v|
    ensures Iterate(f, v, |v|)[i] == f(Iterate(f, v, |v| - 1 - i))
  {
    IterateIsFed(f, v, |v|);
    FedAt(f, v, |v|, i);
  }

  /** The polynomial with the coefficient n - e set for each exponent e. */
  function LowOf(exps: seq<nat>, n: nat): (r: seq<bool>)
    requires InRange(exps, n)
    ensures |r| == n
  {
    if exps == [] then Clear(n) else Sum(UnitOf(n - exps[0], n), LowOf(exps[1..], n))
  }

  function UnitOf(i: nat, n: nat): (r: seq<bool>)
    ensures |r| == n
  {
    seq(n, k => k == i)
  }

  lemma {:induction false} ActUnit(f: Feed, i: nat, n: nat, v: seq<bool>)
    requires i < n && v != [] && Linear(f, |v|)
    ensures Act(f, UnitOf(i, n), v) == Iterate(f, v, i)
    decreases i
  {
    if i == 0 {
      assert UnitOf(0, n)[1..] == Clear(n - 1);
      ActClear(f, n - 1, v);
      PushClear(f, |v|);
      SumClear(v);
    } else {
      assert UnitOf(i, n) == [false] + UnitOf(i - 1, n - 1);
      ActShift(f, UnitOf(i - 1, n - 1), v);
      ActUnit(f, i - 1, n - 1, v);
    }
  }

  lemma {:induction false} ActLow(f: Feed, exps: seq<nat>, v: seq<bool>)
    requires v != [] && InRange(exps, |v|) && Linear(f, |v|)
    ensures Act(f, LowOf(exps, |v|), v) == StepSum(f, v, exps)
  {
    var n := |v|;
    if exps == [] {
      ActClear(f, n, v);
    } else {
      ActLow(f, exps[1..], v);
      ActSum(f, UnitOf(n - exps[0], n), LowOf(exps[1..], n), v);
      ActUnit(f, n - exps[0], n, v);
    }
  }

  /** So the polynomial of the table reduces products. */
  lemma {:induction false} TableReduces(n: nat)
    requires 2 <= n <= 32
    ensures InRange(polynomials[n], n) && Reduces(Feedback(n), LowOf(polynomials[n], n))
  {
    LeadingTap(n);
    DescendingBound(polynomials[n], n + 1);
    FeedbackLinear(n);
    var f, low := Feedback(n), LowOf(polynomials[n], n);
    forall v: seq<bool> {:trigger Act(f, low, v)} | |v| == n ensures Act(f, low, v) == Iterate(f, v, n) {
      FeedbackRelation(n, v);
      ActLow(f, polynomials[n], v);
    }
  }

  // ---------------------------------------------------------------------------
  // One particular word
  // ---------------------------------------------------------------------------

  /** From the word with only its newest bit set, a polynomial of lower degree leads to zero only if it is zero. */
  lemma {:induction false} ActIndependent(f: Feed, c: seq<bool>, n: nat)
    requires 0 < n && |c| <= n && Linear(f, n)
    ensures forall i :: |c| <= i < n ==> !Act(f, c, UnitOf(0, n))[i]
    ensures Act(f, c, UnitOf(0, n)) == Clear(n) ==> c == Clear(|c|)
    decreases |c|
  {
    if c != [] {
      var e := UnitOf(0, n);
      var w, r := Act(f, c[1..], e), Act(f, c, e);
      ActIndependent(f, c[1..], n);
      assert forall i :: 1 <= i < n ==> r[i] == w[i - 1];
      if r == Clear(n) {
        assert forall i :: 0 <= i < n - 1 ==> w[i] == r[i + 1];
        assert w == Clear(n);
        PushClear(f, n);
        assert r[0] == c[0];
        assert c == [c[0]] + c[1..];
      }
    }
  }

  /** So a polynomial that leads from it back to it is one. */
  lemma {:induction false} BackOnlyByOne(f: Feed, c: seq<bool>)
    requires c != [] && Linear(f, |c|) && Act(f, c, UnitOf(0, |c|)) == UnitOf(0, |c|)
    ensures c == UnitOf(0, |c|)
  {
    var n := |c|;
    var e := UnitOf(0, n);
    ActSum(f, c, e, e);
    ActUnit(f, 0, n, e);
    assert Sum(e, e) == Clear(n);
    ActIndependent(f, Sum(c, e), n);
    forall i | 0 <= i < n ensures c[i] == e[i] {
      assert Sum(c, e)[i] == Clear(n)[i];
    }
  }
}
