/**
 Which bit enters the shift register in each mode (src/shift_register_modulator.cpp, tick), and what that makes of
 whole runs: open mode samples its data input, turing mode decides with one random number per edge.
 */
module RegisterModes {
  import opened Lcg
  import opened RegisterWord
  import opened ShiftRegister
  import opened RegisterRuns

  /** The bit that has been in the register for longest. */
  function Oldest(s: State): bool
    requires Wf(s)
  {
    Contents(s)[s.length - 1]
  }

  lemma {:induction false} MsbIsOldest(s: State)
    requires Wf(s)
    ensures Msb(s) == Oldest(s)
  {
    assert ShiftRight(s.reg, s.length - 1)[0] == s.reg[s.length - 1];
  }

  /**
   Rungler mode compares data with the parameter and inverts the oldest bit accordingly, turing mode inverts it when the
   next number drawn is below the parameter, open mode tells whether data is above one half.
   */
  lemma {:induction false} EnteringBits(s: State)
    requires Wf(s)
    ensures s.mode == Rungler ==> (NewBit(s) != Oldest(s) <==> s.data > s.param)
    ensures s.mode == Turing ==> (NewBit(s) != Oldest(s) <==> Draw(Later(s.seed, 1)) < s.param)
    ensures s.mode == Open ==> (NewBit(s) <==> s.data > 0.5)
  {
    MsbIsOldest(s);
    assert Later(s.seed, 1) == NextSeed(Later(s.seed, 0));
  }

  /** A tick in full: it adds to the phase, and only when that reaches one does a bit enter and show on the gate. */
  lemma {:induction false} TickInFull(s: State, hz: real)
    requires Wf(s)
    ensures var t := AfterTick(s, hz);
            if hz <= 0.0 then t == s
            else if s.phase + s.clockRate / hz < 1.0 then t == s.(phase := s.phase + s.clockRate / hz)
            else
              && t == s.(phase := s.phase + s.clockRate / hz - 1.0, reg := t.reg, gateOut := t.gateOut, seed := t.seed)
              && t.gateOut == Contents(t)[0] == NewBit(s)
  {
    if hz > 0.0 && s.phase + s.clockRate / hz >= 1.0 {
      assert Follows(s, Tick(hz), AfterTick(s, hz));
      EdgeShifts(s, Tick(hz), AfterTick(s, hz));
    }
  }

  // ---------------------------------------------------------------------------
  // Open mode
  // ---------------------------------------------------------------------------

  /** Whether data was above one half at each edge so far, the last one first. */
  function Sampled(r: seq<State>, es: seq<Event>, k: nat): seq<bool>
    requires k <= |es| < |r|
  {
    if k == 0 then [] else (if EdgeAt(r, es, k - 1) then [r[k - 1].data > 0.5] else []) + Sampled(r, es, k - 1)
  }

  lemma {:induction false} OpenEnters(r: seq<State>, es: seq<Event>, k: nat)
    requires IsRun(r, es) && k <= |es| && r[0].mode == Open
    ensures Entered(r, es, k) == Sampled(r, es, k)
  {
    if k > 0 {
      OpenEnters(r, es, k - 1);
      RunShape(r, es, k - 1);
      EnteringBits(r[k - 1]);
    }
  }

  /** In open mode the register is the last N samples of the data input, on top of what it started with. */
  lemma {:induction false} OpenSamples(r: seq<State>, es: seq<Event>, k: nat)
    requires IsRun(r, es) && k <= |es| && r[0].mode == Open
    ensures Wf(r[k]) && Contents(r[k]) == (Sampled(r, es, k) + Contents(r[0]))[..r[0].length]
  {
    RegisterHistory(r, es, k);
    OpenEnters(r, es, k);
  }

  // ---------------------------------------------------------------------------
  // Turing mode
  // ---------------------------------------------------------------------------

  /** Turing mode draws one number per edge, the other modes none. */
  lemma {:induction false} DrawsPerEdge(r: seq<State>, es: seq<Event>, k: nat)
    requires IsRun(r, es) && k <= |es|
    ensures r[k].seed == Later(r[0].seed, if r[0].mode == Turing then Edges(r, es, k) else 0)
  {
    if k > 0 {
      DrawsPerEdge(r, es, k - 1);
      RunShape(r, es, k - 1);
      assert StepAt(r, es, k - 1);
      SeedStep(r[k - 1], es[k - 1], r[k]);
    }
  }

  lemma {:induction false} SeedStep(s: State, e: Event, t: State)
    requires Follows(s, e, t)
    ensures t.seed == if s.mode == Turing && FiresOn(s, e) then NextSeed(s.seed) else s.seed
  {
  }

  /** So in every turing run the n-th edge inverts the bit going round exactly when the n-th number is low enough. */
  lemma {:induction false} TuringEdge(r: seq<State>, es: seq<Event>, k: nat)
    requires IsRun(r, es) && k < |es| && r[0].mode == Turing && EdgeAt(r, es, k)
    ensures Wf(r[k + 1]) && Contents(r[k + 1])[1..] == Contents(r[k])[..r[k].length - 1]
    ensures Contents(r[k + 1])[0] != Oldest(r[k]) <==> Draw(Later(r[0].seed, Edges(r, es, k) + 1)) < r[k].param
  {
    DrawsPerEdge(r, es, k);
    RunShape(r, es, k);
    assert StepAt(r, es, k);
    EdgeShifts(r[k], es[k], r[k + 1]);
    EnteringBits(r[k]);
    assert Later(r[k].seed, 1) == NextSeed(Later(r[k].seed, 0)) == Later(r[0].seed, Edges(r, es, k) + 1);
  }

  // ---------------------------------------------------------------------------
  // The first word
  // ---------------------------------------------------------------------------

  lemma {:induction false} ToBitsValue(m: nat, n: nat)
    ensures Value(ToBits(m, n)) == m % Pow2(n)
  {
    if n > 0 {
      ToBitsValue(m / 2, n - 1);
      assert ToBits(m, n)[1..] == ToBits(m / 2, n - 1);
      HalfMod(m, Pow2(n - 1));
    }
  }

  lemma {:induction false} HalfMod(m: nat, p: nat)
    requires p > 0
    ensures m % (2 * p) == m % 2 + 2 * ((m / 2) % p)
  {
    var h := m / 2;
    var q, s := h / p, h % p;
    var t := m % 2 + 2 * s;
    assert h == p * q + s;
    assert m == 2 * h + m % 2 == 2 * (p * q) + t;
    assert (2 * p) * q == 2 * (p * q);
    QuotientUnique(m, 2 * p, q, t);
  }

  lemma {:induction false} QuotientUnique(x: nat, d: nat, q: nat, t: nat)
    requires t < d && x == d * q + t
    ensures x % d == t
  {
    var c, s := x / d, x % d;
    assert x == d * c + s;
    assert d * (c - q) == t - s;
    assert c - q >= 1 ==> d * (c - q) >= d;
    assert c - q <= -1 ==> d * (c - q) + d <= 0;
  }

  lemma {:induction false} ToBitsTake(m: nat, k: nat, n: nat)
    requires n <= k
    ensures ToBits(m, k)[..n] == ToBits(m, n)
  {
    if n > 0 {
      ToBitsTake(m / 2, k - 1, n - 1);
    }
  }

  /** A new register of length N starts with the low N bits of 0xACE1, which are never all zero. */
  lemma {:induction false} FirstWord(n: nat)
    requires 2 <= n <= 32
    ensures Fits(InitialWord(n), n) && Value(InitialWord(n)) == 0xACE1 % Pow2(n) && Value(InitialWord(n)) != 0
  {
    var w := And(Number(0xACE1), Mask(n));
    InitialWordFits(n);
    assert Number(0xACE1)[0] && w[0] && !Number(0)[0];
    ValuePadded(w, n);
    assert w[..n] == Number(0xACE1)[..n];
    ToBitsTake(0xACE1, 32, n);
    ToBitsValue(0xACE1, n);
    if Value(w) == 0 {
      ValueZero(w);
      assert false;
    }
  }
}
