/**
 The shift register fed from its own contents: the linear feedback of lfsr mode, and the recirculation of
 turing and rungler modes.
 */
module RegisterFeedback {
  import opened RegisterWord
  import opened ShiftRegister
  import opened RegisterRuns

  type Feed = seq<bool> -> bool

  function Push(f: Feed, bits: seq<bool>): (b: seq<bool>)
    requires bits != []
    ensures |b| == |bits|
  {
    [f(bits)] + bits[..|bits| - 1]
  }

  /** The bits after `e` edges when the bit that enters is a function of the bits held. */
  function Iterate(f: Feed, bits: seq<bool>, e: nat): (b: seq<bool>)
    requires bits != []
    ensures |b| == |bits|
  {
    if e == 0 then bits else Push(f, Iterate(f, bits, e - 1))
  }

  /** The bit that would enter now is the one `f` gives. */
  ghost predicate FedBy(s: State, f: Feed) { Wf(s) && NewBit(s) == f(Contents(s)) }

  /** One event, seen from the register. */
  ghost predicate Moves(f: Feed, before: seq<bool>, after: seq<bool>, fired: bool) {
    before != [] && after == if fired then Push(f, before) else before
  }

  lemma {:induction false} FedMoves(s: State, e: Event, t: State, f: Feed)
    requires Follows(s, e, t) && FedBy(s, f)
    ensures Moves(f, Contents(s), Contents(t), FiresOn(s, e))
  {
    EdgeShifts(s, e, t);
  }

  ghost predicate MovesAt(f: Feed, c: nat -> seq<bool>, n: nat -> nat, i: nat) {
    n(i) <= n(i + 1) <= n(i) + 1 && Moves(f, c(i), c(i + 1), n(i) < n(i + 1))
  }

  /** The register's contents `c` and edge counts `n` at each moment. */
  lemma {:induction false} MovesIterate(f: Feed, c: nat -> seq<bool>, n: nat -> nat, j: nat, k: nat)
    requires j <= k && c(j) != [] && forall i :: j <= i < k ==> MovesAt(f, c, n, i)
    ensures n(j) <= n(k) && c(k) == Iterate(f, c(j), n(k) - n(j))
  {
    if j < k {
      MovesIterate(f, c, n, j, k - 1);
      assert MovesAt(f, c, n, k - 1);
    }
  }

  ghost function ContentsAt(r: seq<State>): nat -> seq<bool> {
    (i: nat) => if i < |r| && Wf(r[i]) then Contents(r[i]) else []
  }

  ghost function EdgesAt(r: seq<State>, es: seq<Event>): nat -> nat {
    (i: nat) => if i <= |es| < |r| then Edges(r, es, i) else 0
  }

  lemma {:induction false} FedMovesAt(r: seq<State>, es: seq<Event>, f: Feed, i: nat)
    requires IsRun(r, es) && i < |es| && FedBy(r[i], f)
    ensures MovesAt(f, ContentsAt(r), EdgesAt(r, es), i)
  {
    assert StepAt(r, es, i);
    FedMoves(r[i], es[i], r[i + 1], f);
  }

  ghost predicate AllFedBy(r: seq<State>, j: nat, k: nat, f: Feed)
    requires k <= |r|
  {
    forall i {:trigger FedBy(r[i], f)} :: j <= i < k ==> FedBy(r[i], f)
  }

  lemma {:induction false} RunMoves(r: seq<State>, es: seq<Event>, j: nat, k: nat, f: Feed)
    requires IsRun(r, es) && j <= k <= |es| && AllFedBy(r, j, k, f)
    ensures forall i :: j <= i < k ==> MovesAt(f, ContentsAt(r), EdgesAt(r, es), i)
  {
    forall i | j <= i < k ensures MovesAt(f, ContentsAt(r), EdgesAt(r, es), i) {
      FedMovesAt(r, es, f, i);
    }
  }

  /** Between two moments of a run the register advances by as many iterations as there were edges. */
  lemma {:induction false} RunIterates(r: seq<State>, es: seq<Event>, j: nat, k: nat, f: Feed)
    requires IsRun(r, es) && j <= k <= |es| && AllFedBy(r, j, k, f)
    ensures Wf(r[j]) && Wf(r[k]) && Edges(r, es, j) <= Edges(r, es, k)
    ensures Contents(r[k]) == Iterate(f, Contents(r[j]), Edges(r, es, k) - Edges(r, es, j))
  {
    var c, n := ContentsAt(r), EdgesAt(r, es);
    RunShape(r, es, j);
    RunShape(r, es, k);
    assert c(j) == Contents(r[j]) && c(k) == Contents(r[k]);
    assert n(j) == Edges(r, es, j) && n(k) == Edges(r, es, k);
    RunMoves(r, es, j, k, f);
    MovesIterate(f, c, n, j, k);
  }

  // ---------------------------------------------------------------------------
  // Recirculation
  // ---------------------------------------------------------------------------

  /** The oldest bit goes round, inverted or not. */
  function Recirculate(flip: bool): Feed { bits => bits != [] && flip != bits[|bits| - 1] }

  function Flipped(flip: bool, bits: seq<bool>): (b: seq<bool>)
    ensures |b| == |bits|
  {
    seq(|bits|, i requires 0 <= i < |bits| => flip != bits[i])
  }

  lemma {:induction false} PartRound(flip: bool, bits: seq<bool>, e: nat)
    requires bits != [] && e <= |bits|
    ensures Iterate(Recirculate(flip), bits, e) == Flipped(flip, bits[|bits| - e..]) + bits[..|bits| - e]
  {
    if e == 0 {
      assert bits[..|bits|] == bits;
    } else {
      PartRound(flip, bits, e - 1);
      RoundStep(flip, bits, e - 1);
    }
  }

  lemma {:induction false} RoundStep(flip: bool, bits: seq<bool>, e: nat)
    requires e < |bits|
    ensures Push(Recirculate(flip), Flipped(flip, bits[|bits| - e..]) + bits[..|bits| - e])
         == Flipped(flip, bits[|bits| - e - 1..]) + bits[..|bits| - e - 1]
  {
    var n := |bits|;
    var held := Flipped(flip, bits[n - e..]) + bits[..n - e];
    assert |held| == n && held[n - 1] == bits[n - e - 1];
    assert held[..n - 1] == Flipped(flip, bits[n - e..]) + bits[..n - e - 1];
    assert Flipped(flip, bits[n - e - 1..]) == [flip != bits[n - e - 1]] + Flipped(flip, bits[n - e..]);
  }

  /** Once round: every bit comes back, inverted or not. */
  lemma {:induction false} WholeRound(flip: bool, bits: seq<bool>)
    requires bits != []
    ensures Iterate(Recirculate(flip), bits, |bits|) == Flipped(flip, bits)
  {
    PartRound(flip, bits, |bits|);
    assert bits[0..] == bits && bits[..0] == [];
  }

  /**
   The register only goes round: turing mode at either end of its parameter, or rungler mode with the
   comparison settled.
   */
  ghost predicate GoesRound(s: State, flip: bool) {
    || (s.mode == Turing && s.param == if flip then 1.0 else 0.0)
    || (s.mode == Rungler && (s.data > s.param) == flip)
  }

  lemma {:induction false} RoundFeeds(s: State, flip: bool)
    requires Wf(s) && GoesRound(s, flip)
    ensures FedBy(s, Recirculate(flip))
  {
    assert Msb(s) == Contents(s)[s.length - 1];
  }

  /**
   While the register only goes round, N edges bring back every bit, and a word of them is repeated exactly
   when they are not inverted.  In turing mode the parameter 0 freezes the loop because the generator never
   draws a negative number; the parameter 1 inverts every bit, because it never draws one, so the register
   repeats every 2N edges and is not random.
   */
  lemma {:induction false} Recirculation(r: seq<State>, es: seq<Event>, j: nat, k: nat, flip: bool)
    requires IsRun(r, es) && j <= k <= |es| && Edges(r, es, k) == Edges(r, es, j) + r[0].length
    requires forall i :: j <= i < k ==> GoesRound(r[i], flip)
    ensures Wf(r[j]) && Wf(r[k]) && Contents(r[k]) == Flipped(flip, Contents(r[j]))
    ensures !flip <==> r[k].reg == r[j].reg
  {
    forall i | j <= i < k ensures FedBy(r[i], Recirculate(flip)) {
      RunShape(r, es, i);
      RoundFeeds(r[i], flip);
    }
    RunIterates(r, es, j, k, Recirculate(flip));
    RunShape(r, es, j);
    RunShape(r, es, k);
    WholeRound(flip, Contents(r[j]));
    SameWord(r[j], r[k], flip);
  }

  lemma {:induction false} SameWord(s: State, t: State, flip: bool)
    requires Wf(s) && Wf(t) && SameShape(s, t) && Contents(t) == Flipped(flip, Contents(s))
    ensures !flip <==> t.reg == s.reg
  {
    if !flip {
      assert Flipped(flip, Contents(s)) == Contents(s);
      FitsEqual(s.reg, t.reg, s.length);
    } else {
      assert Contents(t)[0] != Contents(s)[0];
    }
  }

  /** Two whole rounds always repeat the word. */
  lemma {:induction false} TwoRounds(r: seq<State>, es: seq<Event>, i: nat, j: nat, k: nat, flip: bool)
    requires IsRun(r, es) && i <= j <= k <= |es|
    requires Edges(r, es, j) == Edges(r, es, i) + r[0].length && Edges(r, es, k) == Edges(r, es, j) + r[0].length
    requires forall m :: i <= m < k ==> GoesRound(r[m], flip)
    ensures r[k].reg == r[i].reg
  {
    Recirculation(r, es, i, j, flip);
    Recirculation(r, es, j, k, flip);
    RunShape(r, es, i);
    RunShape(r, es, k);
    assert Flipped(flip, Flipped(flip, Contents(r[i]))) == Contents(r[i]);
    FitsEqual(r[i].reg, r[k].reg, r[0].length);
  }

  // ---------------------------------------------------------------------------
  // Linear feedback
  // ---------------------------------------------------------------------------

  /** The exclusive or of the bits that the polynomial for this length names. */
  function Feedback(n: nat): Feed {
    bits => 2 <= n <= 32 && |bits| == n && InRange(polynomials[n], n) && XorAt(bits, polynomials[n])
  }

  lemma {:induction false} LfsrFeeds(s: State)
    requires Wf(s) && s.mode == Lfsr
    ensures FedBy(s, Feedback(s.length))
  {
    FeedbackIsPolynomial(s.reg, s.length);
  }

  /** The part of the polynomial below its leading term, which only taps younger bits. */
  function Younger(n: nat): Feed {
    bits => && 2 <= n <= 32 && |bits| == n - 1 && polynomials[n] != []
            && InRange(polynomials[n][1..], n - 1) && XorAt(bits, polynomials[n][1..])
  }

  /** A feed that inverts the oldest bit, or not, by a function of the younger ones. */
  ghost predicate Splits(f: Feed, g: Feed, n: nat) {
    forall bits: seq<bool> {:trigger f(bits)} :: |bits| == n > 0 ==> f(bits) == (bits[n - 1] != g(bits[..n - 1]))
  }

  lemma {:induction false} XorSplits(bits: seq<bool>, exps: seq<nat>)
    requires bits != [] && exps != [] && exps[0] == |bits| && Descending(exps, |bits| + 1)
    ensures InRange(exps, |bits|) && InRange(exps[1..], |bits| - 1)
    ensures XorAt(bits, exps) == (bits[|bits| - 1] != XorAt(bits[..|bits| - 1], exps[1..]))
  {
    DescendingBound(exps, |bits| + 1);
    DescendingBound(exps[1..], |bits|);
    XorAtPrefix(bits, exps[1..], |bits| - 1);
  }

  lemma {:induction false} LeadingTap(n: nat)
    requires 2 <= n <= 32
    ensures polynomials[n] != [] && polynomials[n][0] == n && Descending(polynomials[n], n + 1)
  {
    TableMatches(n);
  }

  lemma {:induction false} FeedbackSplitsAt(n: nat, bits: seq<bool>)
    requires 2 <= n <= 32 && |bits| == n
    ensures Feedback(n)(bits) == (bits[n - 1] != Younger(n)(bits[..n - 1]))
  {
    LeadingTap(n);
    XorSplits(bits, polynomials[n]);
  }

  lemma {:induction false} FeedbackSplits(n: nat)
    requires 2 <= n <= 32
    ensures Splits(Feedback(n), Younger(n), n)
  {
    var f, g := Feedback(n), Younger(n);
    forall bits: seq<bool> {:trigger f(bits)} | |bits| == n ensures f(bits) == (bits[n - 1] != g(bits[..n - 1])) {
      FeedbackSplitsAt(n, bits);
    }
  }

  predicate AnySet(bits: seq<bool>) { true in bits }

  lemma {:induction false} XorAtClear(bits: seq<bool>, exps: seq<nat>)
    requires InRange(exps, |bits|) && !AnySet(bits)
    ensures !XorAt(bits, exps)
  {
    if exps != [] {
      XorAtClear(bits, exps[1..]);
      assert bits[exps[0] - 1] in bits;
    }
  }

  lemma {:induction false} YoungerClear(n: nat, bits: seq<bool>)
    requires !AnySet(bits)
    ensures !Younger(n)(bits)
  {
    if 2 <= n <= 32 && |bits| == n - 1 && polynomials[n] != [] && InRange(polynomials[n][1..], n - 1) {
      XorAtClear(bits, polynomials[n][1..]);
    }
  }

  /** No two registers have the same successor, because the feed depends on the bit that drops out. */
  lemma {:induction false} SplitInjective(f: Feed, g: Feed, a: seq<bool>, b: seq<bool>)
    requires |a| == |b| > 0 && Splits(f, g, |a|) && Push(f, a) == Push(f, b)
    ensures a == b
  {
    var n := |a|;
    var x, y := Push(f, a), Push(f, b);
    assert x[0] == y[0] && x[1..] == a[..n - 1] && y[1..] == b[..n - 1];
    assert a == a[..n - 1] + [a[n - 1]] && b == b[..n - 1] + [b[n - 1]];
  }

  /** A register with a bit set keeps one set, and one without never gains one. */
  lemma {:induction false} SplitKeepsSet(f: Feed, g: Feed, a: seq<bool>)
    requires a != [] && Splits(f, g, |a|) && (!AnySet(a[..|a| - 1]) ==> !g(a[..|a| - 1]))
    ensures AnySet(Push(f, a)) <==> AnySet(a)
  {
    var rest := a[..|a| - 1];
    assert a == rest + [a[|a| - 1]] && Push(f, a) == [f(a)] + rest;
  }

  // ---------------------------------------------------------------------------
  // Orbits of a reversible feed
  // ---------------------------------------------------------------------------

  ghost predicate Injective(f: Feed, n: nat) {
    forall a: seq<bool>, b: seq<bool> {:trigger Push(f, a), Push(f, b)} ::
      |a| == |b| == n > 0 && Push(f, a) == Push(f, b) ==> a == b
  }

  ghost predicate KeepsSet(f: Feed, n: nat) {
    forall a: seq<bool> {:trigger Push(f, a)} :: |a| == n > 0 ==> (AnySet(Push(f, a)) <==> AnySet(a))
  }

  /** The lfsr step is injective, and a word is zero exactly when its successor is. */
  lemma {:induction false} LfsrReversible(n: nat)
    requires 2 <= n <= 32
    ensures Injective(Feedback(n), n) && KeepsSet(Feedback(n), n)
  {
    var f, g := Feedback(n), Younger(n);
    FeedbackSplits(n);
    forall a: seq<bool>, b: seq<bool> {:trigger Push(f, a), Push(f, b)} | |a| == |b| == n && Push(f, a) == Push(f, b)
      ensures a == b
    {
      SplitInjective(f, g, a, b);
    }
    forall a: seq<bool> {:trigger Push(f, a)} | |a| == n ensures AnySet(Push(f, a)) <==> AnySet(a) {
      if !AnySet(a[..n - 1]) {
        YoungerClear(n, a[..n - 1]);
      }
      SplitKeepsSet(f, g, a);
    }
  }

  lemma {:induction false} IterateKeepsSet(f: Feed, bits: seq<bool>, e: nat)
    requires bits != [] && KeepsSet(f, |bits|)
    ensures AnySet(Iterate(f, bits, e)) <==> AnySet(bits)
  {
    if e > 0 {
      IterateKeepsSet(f, bits, e - 1);
    }
  }

  /** The same word twice means that the start comes back. */
  lemma {:induction false} Cancel(f: Feed, bits: seq<bool>, i: nat, j: nat)
    requires bits != [] && Injective(f, |bits|) && i <= j && Iterate(f, bits, i) == Iterate(f, bits, j)
    ensures Iterate(f, bits, j - i) == bits
  {
    if i > 0 {
      var a, b := Iterate(f, bits, i - 1), Iterate(f, bits, j - 1);
      assert Push(f, a) == Push(f, b);
      Cancel(f, bits, i - 1, j - 1);
    }
  }

  lemma {:induction false} OrbitValue(f: Feed, bits: seq<bool>, e: nat)
    requires bits != [] && KeepsSet(f, |bits|) && AnySet(bits)
    ensures 1 <= Value(Iterate(f, bits, e)) <= Pow2(|bits|) - 1
  {
    var b := Iterate(f, bits, e);
    IterateKeepsSet(f, bits, e);
    ValueBound(b);
    if Value(b) == 0 {
      ValueZero(b);
    }
  }

  /** In every run of lfsr mode from a word with a bit set, the word never becomes zero. */
  lemma {:induction false} LfsrNeverZero(r: seq<State>, es: seq<Event>, k: nat)
    requires IsRun(r, es) && k <= |es| && r[0].mode == Lfsr && AnySet(r[0].reg)
    ensures AnySet(r[k].reg)
  {
    LfsrRun(r, es, 0, k);
    RunShape(r, es, k);
    var n := r[0].length;
    var i :| 0 <= i < 32 && r[0].reg[i];
    assert i < n && Contents(r[0])[i];
    LfsrReversible(n);
    IterateKeepsSet(Feedback(n), Contents(r[0]), Edges(r, es, k));
    assert forall b :: b in Contents(r[k]) ==> b in r[k].reg;
  }

  lemma {:induction false} LfsrRun(r: seq<State>, es: seq<Event>, j: nat, k: nat)
    requires IsRun(r, es) && j <= k <= |es| && r[0].mode == Lfsr
    ensures Wf(r[j]) && Wf(r[k]) && Edges(r, es, j) <= Edges(r, es, k)
    ensures Contents(r[k]) == Iterate(Feedback(r[0].length), Contents(r[j]), Edges(r, es, k) - Edges(r, es, j))
  {
    forall i | j <= i < k ensures FedBy(r[i], Feedback(r[0].length)) {
      RunShape(r, es, i);
      LfsrFeeds(r[i]);
    }
    RunIterates(r, es, j, k, Feedback(r[0].length));
  }
}
