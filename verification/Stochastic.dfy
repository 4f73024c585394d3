/**
 The stochastic gate and CV source with its deja-vu loop (src/stochastic_modulator.cpp).  Times and levels
 are reals, and the logarithm is an arbitrary function.
 */
module Stochastic {
  import opened Lcg
  import opened Numbers

  const MAX_LENGTH: nat := 16

  datatype Key = Rate | Bias | Jitter | Spread | DejaVu | Depth | Length | Steps | OtherKey

  datatype State = State(
    rate: real, bias: real, jitter: real, spread: real, dejaVu: real, depth: real, length: nat, steps: nat,
    phase: real, threshold: real, cvOut: real, gateOut: bool,
    cvBuf: seq<real>, gateBuf: seq<bool>, writePos: nat, readPos: nat, seed: Seed)

  datatype Output = Output(cv: real, gate: bool)

  /** -log. */
  type NegLog = real -> real

  predicate Wf(s: State) {
    && s.rate > 0.0 && 0.0 <= s.bias <= 1.0 && 0.0 <= s.jitter <= 1.0 && 0.0 <= s.spread <= 1.0
    && 0.0 <= s.dejaVu <= 1.0 && 0.0 <= s.depth <= 1.0
    && 1 <= s.length <= MAX_LENGTH && s.steps <= 16
    && |s.cvBuf| == |s.gateBuf| == MAX_LENGTH && s.writePos < MAX_LENGTH && s.readPos < MAX_LENGTH
  }

  // ---------------------------------------------------------------------------
  // One clock event
  // ---------------------------------------------------------------------------

  function Centred(raw: real, bias: real, spread: real): (cv: real)
    ensures 0.0 <= cv <= 1.0
  {
    Clamp(bias + (raw - 0.5) * spread * 2.0, 0.0, 1.0)
  }

  function Quantised(cv: real, steps: nat): real {
    if steps > 0 then Round(cv * steps as real) as real / steps as real else cv
  }

  /** The level that a draw stands for: centred on the bias, clamped, quantised, and moved to [-1, 1]. */
  function Level(raw: real, bias: real, spread: real, steps: nat): real {
    Quantised(Centred(raw, bias, spread), steps) * 2.0 - 1.0
  }

  lemma {:induction false} RoundWithin(x: real, n: nat)
    requires 0.0 <= x <= n as real
    ensures 0 <= Round(x) <= n
  {
  }

  lemma {:induction false} FractionWithin(m: nat, n: nat)
    requires m <= n && n > 0
    ensures 0.0 <= m as real / n as real <= 1.0
  {
    assert (m as real / n as real) * n as real == m as real;
  }

  lemma {:induction false} QuantisedWithin(cv: real, steps: nat)
    requires 0.0 <= cv <= 1.0
    ensures 0.0 <= Quantised(cv, steps) <= 1.0
  {
    if steps > 0 {
      assert 0.0 <= cv * steps as real;
      assert (1.0 - cv) * steps as real >= 0.0;
      RoundWithin(cv * steps as real, steps);
      FractionWithin(Round(cv * steps as real), steps);
    }
  }

  /** Every generated level is within [-1, 1], quantised or not. */
  lemma {:induction false} LevelWithin(raw: real, bias: real, spread: real, steps: nat)
    ensures -1.0 <= Level(raw, bias, spread, steps) <= 1.0
  {
    QuantisedWithin(Centred(raw, bias, spread), steps);
  }

  /** Whether the loop replays, and the seed after deciding; no number is drawn at deja_vu 0. */
  function Replays(s: State): bool { s.dejaVu > 0.0 && Draw(NextSeed(s.seed)) < Min(s.dejaVu * 2.0, 1.0) }

  function AfterReplay(s: State): State { if s.dejaVu > 0.0 then s.(seed := NextSeed(s.seed)) else s }

  /** Whether the read position stays, and the seed after deciding; no number is drawn up to deja_vu 0.5. */
  function Freezes(s: State): bool { s.dejaVu > 0.5 && Draw(NextSeed(s.seed)) < Max((s.dejaVu - 0.5) * 2.0, 0.0) }

  function AfterFreeze(s: State): State { if s.dejaVu > 0.5 then s.(seed := NextSeed(s.seed)) else s }

  /** The next threshold, between a fixed period and an exponential one. */
  function Rearmed(s: State, negLog: NegLog): State {
    var seed := NextSeed(s.seed);
    var u := Max(Draw(seed), 0.000001);
    s.(seed := seed, threshold := 1.0 + s.jitter * (negLog(u) - 1.0))
  }

  /** A fresh gate and level at the write position. */
  function Written(s: State): State
    requires Wf(s)
  {
    var first := NextSeed(s.seed);
    var second := NextSeed(first);
    s.(seed := second,
       gateBuf := s.gateBuf[s.writePos := Draw(first) < s.bias],
       cvBuf := s.cvBuf[s.writePos := Level(Draw(second), s.bias, s.spread, s.steps)],
       writePos := (s.writePos + 1) % s.length)
  }

  /** The entry at the read position goes out, and the position moves on unless it is frozen. */
  function Played(s: State, freeze: bool): State
    requires Wf(s)
  {
    s.(gateOut := s.gateBuf[s.readPos], cvOut := s.cvBuf[s.readPos],
       readPos := if freeze then s.readPos else (s.readPos + 1) % s.length)
  }

  function Event(s: State, negLog: NegLog): State
    requires Wf(s)
  {
    var a := Rearmed(s, negLog);
    var b := AfterReplay(a);
    var c := AfterFreeze(b);
    Played(if Replays(a) then c else Written(c), Freezes(b))
  }

  predicate Fires(s: State, hz: real)
    requires Wf(s)
  {
    hz > 0.0 && s.phase + s.rate / hz >= s.threshold
  }

  /** The state in which the event of a tick that fires takes place. */
  function Due(s: State, hz: real): (t: State)
    requires Wf(s) && hz > 0.0
    ensures Wf(t)
  {
    s.(gateOut := false, phase := s.phase + s.rate / hz - s.threshold)
  }

  function AfterTick(s: State, negLog: NegLog, hz: real): State
    requires Wf(s)
  {
    if hz <= 0.0 then s.(gateOut := false)
    else if Fires(s, hz) then Event(Due(s, hz), negLog)
    else s.(gateOut := false, phase := s.phase + s.rate / hz)
  }

  function AfterUpdate(s: State, key: Key, value: real): State {
    match key
    case Rate => s.(rate := Clamp(value, 0.001, 100.0))
    case Bias => s.(bias := Clamp(value, 0.0, 1.0))
    case Jitter => s.(jitter := Clamp(value, 0.0, 1.0))
    case Spread => s.(spread := Clamp(value, 0.0, 1.0))
    case DejaVu => s.(dejaVu := Clamp(value, 0.0, 1.0))
    case Depth => s.(depth := Clamp(value, 0.0, 1.0))
    case Length => s.(length := ClampInt(Round(value), 1, MAX_LENGTH))
    case Steps => s.(steps := ClampInt(Round(value), 0, 16))
    case OtherKey => s
  }

  class Modulator {
    const negLog: NegLog
    const cvBuf: array<real>
    const gateBuf: array<bool>
    var rate: real
    var bias: real
    var jitter: real
    var spread: real
    var dejaVu: real
    var depth: real
    var length: nat
    var steps: nat
    var phase: real
    var threshold: real
    var cvOut: real
    var gateOut: bool
    var writePos: nat
    var readPos: nat
    var seed: Seed

    function View(): State
      reads this, cvBuf, gateBuf
    {
      State(rate, bias, jitter, spread, dejaVu, depth, length, steps, phase, threshold, cvOut, gateOut,
            cvBuf[..], gateBuf[..], writePos, readPos, seed)
    }

    /** Both buffers start with distinct draws. */
    constructor (negLog: NegLog)
      ensures fresh(cvBuf) && fresh(gateBuf) && this.negLog == negLog && Wf(View())
      ensures forall i :: 0 <= i < MAX_LENGTH ==> cvBuf[i] == Draw(Later(0xACE1, 2 * i + 1)) * 2.0 - 1.0
      ensures forall i :: 0 <= i < MAX_LENGTH ==> gateBuf[i] == (Draw(Later(0xACE1, 2 * i + 2)) > 0.5)
      ensures cvBuf.Length == gateBuf.Length == 16 && seed == Later(0xACE1, 32) && readPos == writePos == 0
      ensures rate == 2.0 && bias == 0.5 && jitter == 0.0 && spread == 0.5 && dejaVu == 0.0 && depth == 1.0
      ensures length == 8 && steps == 0 && phase == 0.0 && threshold == 1.0 && cvOut == 0.0 && !gateOut
    {
      this.negLog := negLog;
      cvBuf, gateBuf := new real[MAX_LENGTH], new bool[MAX_LENGTH];
      rate, bias, jitter, spread, dejaVu, depth, length, steps := 2.0, 0.5, 0.0, 0.5, 0.0, 1.0, 8, 0;
      phase, threshold, cvOut, gateOut, writePos, readPos, seed := 0.0, 1.0, 0.0, false, 0, 0, 0xACE1;
      new;
      var i := 0;
      while i < MAX_LENGTH
        invariant 0 <= i <= MAX_LENGTH && seed == Later(0xACE1, 2 * i)
        invariant forall j :: 0 <= j < i ==> cvBuf[j] == Draw(Later(0xACE1, 2 * j + 1)) * 2.0 - 1.0
        invariant forall j :: 0 <= j < i ==> gateBuf[j] == (Draw(Later(0xACE1, 2 * j + 2)) > 0.5)
        invariant readPos == writePos == 0 && dejaVu == 0.0 && length == 8 && steps == 0 && rate == 2.0
        invariant bias == 0.5 && jitter == 0.0 && spread == 0.5 && depth == 1.0
        invariant phase == 0.0 && threshold == 1.0 && cvOut == 0.0 && !gateOut
      {
        var a := NextRand();
        cvBuf[i] := a * 2.0 - 1.0;
        var b := NextRand();
        gateBuf[i] := b > 0.5;
        i := i + 1;
      }
    }

    method NextRand() returns (r: real)
      modifies this`seed
      ensures seed == NextSeed(old(seed)) && r == Draw(seed) && 0.0 <= r < 1.0
    {
      seed := NextSeed(seed);
      r := Draw(seed);
    }

    method GenerateCv() returns (cv: real)
      modifies this`seed
      ensures seed == NextSeed(old(seed)) && cv == Level(Draw(seed), bias, spread, steps) && -1.0 <= cv <= 1.0
    {
      var raw := NextRand();
      LevelWithin(raw, bias, spread, steps);
      cv := Level(raw, bias, spread, steps);
    }

    method Rearm()
      modifies this
      ensures View() == Rearmed(old(View()), negLog)
    {
      var u := NextRand();
      threshold := 1.0 + jitter * (negLog(Max(u, 0.000001)) - 1.0);
    }

    method DecideReplay() returns (replay: bool)
      modifies this`seed
      ensures replay == Replays(old(View())) && View() == AfterReplay(old(View()))
    {
      replay := false;
      if dejaVu > 0.0 {
        var r := NextRand();
        replay := r < Min(dejaVu * 2.0, 1.0);
      }
    }

    method DecideFreeze() returns (freeze: bool)
      modifies this`seed
      ensures freeze == Freezes(old(View())) && View() == AfterFreeze(old(View()))
    {
      freeze := false;
      if dejaVu > 0.5 {
        var r := NextRand();
        freeze := r < Max((dejaVu - 0.5) * 2.0, 0.0);
      }
    }

    method WriteFresh()
      requires Wf(View())
      modifies this, cvBuf, gateBuf
      ensures View() == Written(old(View()))
    {
      var r := NextRand();
      var newGate := r < bias;
      var newCv := GenerateCv();
      gateBuf[writePos] := newGate;
      cvBuf[writePos] := newCv;
      writePos := (writePos + 1) % length;
    }

    method ClockEvent()
      requires Wf(View())
      modifies this, cvBuf, gateBuf
      ensures View() == Event(old(View()), negLog)
    {
      Rearm();
      var replay := DecideReplay();
      var freeze := DecideFreeze();
      if !replay {
        WriteFresh();
      }
      Play(freeze);
    }

    method Play(freeze: bool)
      requires Wf(View())
      modifies this
      ensures View() == Played(old(View()), freeze)
    {
      gateOut := gateBuf[readPos];
      cvOut := cvBuf[readPos];
      if !freeze {
        readPos := (readPos + 1) % length;
      }
    }

    method Advance(hz: real) returns (fired: bool)
      requires Wf(View())
      modifies this, cvBuf, gateBuf
      ensures View() == AfterTick(old(View()), negLog, hz) && fired == Fires(old(View()), hz)
      ensures !fired ==> !gateOut
    {
      gateOut := false;
      if hz <= 0.0 {
        return false;
      }
      phase := phase + rate / hz;
      if phase < threshold {
        return false;
      }
      phase := phase - threshold;
      ClockEvent();
      fired := true;
    }

    /** One tick; the gate is high only on a tick on which the clock fired. */
    method Tick(hz: real) returns (out: Output)
      requires Wf(View())
      modifies this, cvBuf, gateBuf
      ensures View() == AfterTick(old(View()), negLog, hz)
      ensures out == Output(cvOut * depth, gateOut) && (out.gate ==> Fires(old(View()), hz))
    {
      var fired := Advance(hz);
      out := Output(cvOut * depth, fired && gateOut);
    }

    method Update(key: Key, value: real)
      modifies this
      ensures View() == AfterUpdate(old(View()), key, value)
    {
      match key {
        case Rate => rate := Clamp(value, 0.001, 100.0);
        case Bias => bias := Clamp(value, 0.0, 1.0);
        case Jitter => jitter := Clamp(value, 0.0, 1.0);
        case Spread => spread := Clamp(value, 0.0, 1.0);
        case DejaVu => dejaVu := Clamp(value, 0.0, 1.0);
        case Depth => depth := Clamp(value, 0.0, 1.0);
        case Length => length := ClampInt(Round(value), 1, MAX_LENGTH);
        case Steps => steps := ClampInt(Round(value), 0, 16);
        case OtherKey =>
      }
    }
  }
}
