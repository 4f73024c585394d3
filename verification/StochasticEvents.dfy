/**
 What one event of the stochastic modulator does, told from the numbers it draws (src/stochastic_modulator.cpp, tick and
 generate_cv): in which order they are drawn, what each decides, and what a level drawn means.
 */
module StochasticEvents {
  import opened Lcg
  import opened Numbers
  import opened Stochastic

  /** The n-th number drawn from here on. */
  function Drawn(s: State, n: nat): real { Draw(Later(s.seed, n)) }

  /** The loop replays with probability twice deja_vu; without deja_vu nothing is drawn for it. */
  predicate ReplayDrawn(s: State) { s.dejaVu > 0.0 && Drawn(s, 2) < 2.0 * s.dejaVu }

  /** The read position stays with probability twice what deja_vu is above one half. */
  predicate FreezeDrawn(s: State) { s.dejaVu > 0.5 && Drawn(s, 3) < 2.0 * s.dejaVu - 1.0 }

  /** The numbers drawn before a fresh gate and level: one for the clock, and one for each decision that is open. */
  function DrawnBefore(s: State): nat { 1 + (if s.dejaVu > 0.0 then 1 else 0) + if s.dejaVu > 0.5 then 1 else 0 }

  lemma {:induction false} LaterTwo(s: Seed)
    ensures Later(s, 1) == NextSeed(s) && Later(s, 2) == NextSeed(NextSeed(s))
    ensures Later(s, 3) == NextSeed(NextSeed(NextSeed(s)))
  {
    assert Later(s, 0) == s;
  }

  lemma {:induction false} Decisions(s: State, negLog: NegLog)
    requires Wf(s)
    ensures var a := Rearmed(s, negLog);
            var b := AfterReplay(a);
            && (Replays(a) <==> ReplayDrawn(s)) && (Freezes(b) <==> FreezeDrawn(s))
            && AfterFreeze(b).seed == Later(s.seed, DrawnBefore(s))
            && AfterFreeze(b) == s.(seed := Later(s.seed, DrawnBefore(s)), threshold := a.threshold)
  {
    LaterTwo(s.seed);
  }

  lemma {:induction false} LaterMore(s: Seed, n: nat)
    ensures NextSeed(Later(s, n)) == Later(s, n + 1) && NextSeed(NextSeed(Later(s, n))) == Later(s, n + 2)
  {
    assert Later(s, n + 1) == NextSeed(Later(s, n));
  }

  /** A fresh event draws a gate with probability bias, then a level, and writes both at the write position. */
  lemma {:induction false} FreshlyWritten(s: State, n: nat)
    requires Wf(s)
    ensures var c := s.(seed := Later(s.seed, n));
            var t := Written(c);
            && t.gateBuf == s.gateBuf[s.writePos := Drawn(s, n + 1) < s.bias]
            && t.cvBuf == s.cvBuf[s.writePos := Level(Drawn(s, n + 2), s.bias, s.spread, s.steps)]
            && t.writePos == (s.writePos + 1) % s.length && t.seed == Later(s.seed, n + 2)
            && t == c.(gateBuf := t.gateBuf, cvBuf := t.cvBuf, writePos := t.writePos, seed := t.seed)
  {
    LaterMore(s.seed, n);
  }

  /**
   One event in full: whether it replays and whether it freezes are decided by the second and third number drawn; if it
   does not replay, a gate and a level are drawn and written; what goes out is the entry at the read position, which
   then moves on unless it is frozen.
   */
  lemma {:induction false} EventInFull(s: State, negLog: NegLog)
    requires Wf(s)
    ensures var t, n := Event(s, negLog), DrawnBefore(s);
            && (if ReplayDrawn(s) then
                  t.gateBuf == s.gateBuf && t.cvBuf == s.cvBuf && t.writePos == s.writePos && t.seed == Later(s.seed, n)
                else
                  && t.gateBuf == s.gateBuf[s.writePos := Drawn(s, n + 1) < s.bias]
                  && t.cvBuf == s.cvBuf[s.writePos := Level(Drawn(s, n + 2), s.bias, s.spread, s.steps)]
                  && t.writePos == (s.writePos + 1) % s.length && t.seed == Later(s.seed, n + 2))
            && t.gateOut == t.gateBuf[s.readPos] && t.cvOut == t.cvBuf[s.readPos]
            && t.readPos == if FreezeDrawn(s) then s.readPos else (s.readPos + 1) % s.length
  {
    var n := DrawnBefore(s);
    var a := Rearmed(s, negLog);
    var c := AfterFreeze(AfterReplay(a));
    Decisions(s, negLog);
    if !ReplayDrawn(s) {
      var s' := s.(threshold := a.threshold);
      assert c == s'.(seed := Later(s'.seed, n));
      FreshlyWritten(s', n);
    }
  }

  /** An event changes no parameter and not the phase. */
  lemma {:induction false} EventKeepsParameters(s: State, negLog: NegLog)
    requires Wf(s)
    ensures var t := Event(s, negLog);
            && t.rate == s.rate && t.bias == s.bias && t.jitter == s.jitter && t.spread == s.spread
            && t.dejaVu == s.dejaVu && t.depth == s.depth && t.length == s.length && t.steps == s.steps
            && t.phase == s.phase
  {
  }

  /** A tick in full: it clears the gate and adds to the phase, and has an event when that reaches the threshold. */
  lemma {:induction false} TickInFull(s: State, negLog: NegLog, hz: real)
    requires Wf(s)
    ensures var t := AfterTick(s, negLog, hz);
            if hz <= 0.0 then t == s.(gateOut := false)
            else if s.phase + s.rate / hz < s.threshold then t == s.(gateOut := false, phase := s.phase + s.rate / hz)
            else t == Event(s.(gateOut := false, phase := s.phase + s.rate / hz - s.threshold), negLog)
  {
  }

  // ---------------------------------------------------------------------------
  // Levels
  // ---------------------------------------------------------------------------

  /** A draw spread around the bias, by the spread to either side. */
  function Meant(raw: real, bias: real, spread: real): real { bias + (2.0 * raw - 1.0) * spread }

  lemma {:induction false} CentredIsMeant(raw: real, bias: real, spread: real)
    ensures Held(Centred(raw, bias, spread), Meant(raw, bias, spread), 0.0, 1.0)
  {
    assert (raw - 0.5) * spread * 2.0 == (2.0 * raw - 1.0) * spread;
  }

  /** `place` is the n-th of `steps` + 1 even places, the nearest of them to `x`. */
  predicate NearestPlace(place: real, x: real, steps: nat, n: int) {
    Nearest(n, x * steps as real) && place * steps as real == n as real
  }

  lemma {:induction false} QuantisedIsNearest(cv: real, steps: nat) returns (n: int)
    requires steps > 0
    ensures NearestPlace(Quantised(cv, steps), cv, steps, n)
  {
    n := Round(cv * steps as real);
    RoundIsNearest(cv * steps as real);
    assert n as real / steps as real * steps as real == n as real;
  }

  lemma {:induction false} LevelPlace(raw: real, bias: real, spread: real, steps: nat)
    ensures (Level(raw, bias, spread, steps) + 1.0) / 2.0 == Quantised(Centred(raw, bias, spread), steps)
  {
  }

  /**
   A level stands for the draw spread around the bias and held within [0, 1], moved onto [-1, 1]; with quantising it
   stands for the nearest of steps + 1 even places instead.
   */
  lemma {:induction false} LevelMeans(raw: real, bias: real, spread: real, steps: nat) returns (held: real, n: int)
    ensures Held(held, Meant(raw, bias, spread), 0.0, 1.0)
    ensures var place := (Level(raw, bias, spread, steps) + 1.0) / 2.0;
            if steps == 0 then place == held else NearestPlace(place, held, steps, n)
  {
    held, n := Centred(raw, bias, spread), 0;
    CentredIsMeant(raw, bias, spread);
    LevelPlace(raw, bias, spread, steps);
    if steps > 0 {
      n := QuantisedIsNearest(held, steps);
    }
  }
}
