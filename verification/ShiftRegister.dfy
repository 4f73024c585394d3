/**
 The clocked shift register (src/shift_register_modulator.cpp): its tick and update, and what holds over
 whole runs of them.  Times, rates and levels are reals.
 */
module ShiftRegister {
  import opened RegisterWord
  import opened Lcg
  import opened Numbers

  datatype Mode = Lfsr | Rungler | Turing | Open

  datatype Key = ClockRate | Data | Param | Depth | OtherKey

  datatype State = State(
    mode: Mode, length: nat, dacBits: nat, reg: Bits32, gateOut: bool,
    clockRate: real, data: real, param: real, depth: real, phase: real, seed: Seed)

  datatype Output = Output(cv: real, gate: bool, state: Bits32)

  predicate Wf(s: State) {
    && 2 <= s.length <= 32 && 1 <= s.dacBits <= s.length && s.dacBits <= 8
    && Fits(s.reg, s.length) && s.clockRate > 0.0 && s.phase >= 0.0
    && 0.0 <= s.data <= 1.0 && 0.0 <= s.param <= 1.0 && 0.0 <= s.depth <= 1.0
  }

  // ---------------------------------------------------------------------------
  // One tick
  // ---------------------------------------------------------------------------

  /** The oldest bit of the register. */
  function Msb(s: State): bool
    requires Wf(s)
  {
    ShiftRight(s.reg, s.length - 1)[0]
  }

  function NewBit(s: State): bool
    requires Wf(s)
  {
    match s.mode
    case Lfsr => Fold(And(s.reg, Taps(s.length)))
    case Rungler => (s.data > s.param) != Msb(s)
    case Turing => if Draw(NextSeed(s.seed)) < s.param then !Msb(s) else Msb(s)
    case Open => s.data > 0.5
  }

  predicate SameShape(s: State, t: State) { t.mode == s.mode && t.length == s.length && t.dacBits == s.dacBits }

  function Edge(s: State): (t: State)
    requires Wf(s)
    ensures Wf(t) && SameShape(s, t)
  {
    var b := NewBit(s);
    s.(reg := ShiftIn(s.reg, b, s.length), gateOut := b, seed := if s.mode == Turing then NextSeed(s.seed) else s.seed)
  }

  /** How far one tick advances the clock. */
  function Increment(rate: real, hz: real): (r: real)
    requires rate > 0.0
    ensures r >= 0.0
  {
    if hz > 0.0 then rate / hz else 0.0
  }

  predicate Fires(s: State, hz: real)
    requires Wf(s)
  {
    hz > 0.0 && s.phase + Increment(s.clockRate, hz) >= 1.0
  }

  function AfterTick(s: State, hz: real): (t: State)
    requires Wf(s)
    ensures Wf(t) && SameShape(s, t)
  {
    var phase := s.phase + Increment(s.clockRate, hz);
    if Fires(s, hz) then Edge(s.(phase := phase - 1.0)) else s.(phase := phase)
  }

  /** Zero to minus one, `max` to plus one, evenly. */
  function Scaled(v: nat, max: nat): real
    requires max > 0
  {
    v as real / max as real * 2.0 - 1.0
  }

  function Raw(s: State): Bits32
    requires Wf(s)
  {
    And(ShiftRight(s.reg, s.length - s.dacBits), Mask(s.dacBits))
  }

  /** The number in the dacBits oldest bits, scaled to [-1, 1]. */
  function Dac(s: State): real
    requires Wf(s)
  {
    MaskValue(s.dacBits);
    assert Pow2(s.dacBits) == 2 * Pow2(s.dacBits - 1);
    Scaled(Value(Raw(s)), Value(Mask(s.dacBits)))
  }

  function AfterUpdate(s: State, key: Key, value: real): (t: State)
    requires Wf(s)
    ensures Wf(t) && SameShape(s, t) && t.reg == s.reg && t.phase == s.phase && t.seed == s.seed
  {
    match key
    case ClockRate => s.(clockRate := Clamp(value, 0.001, 1000.0))
    case Data => s.(data := Clamp(value, 0.0, 1.0))
    case Param => s.(param := Clamp(value, 0.0, 1.0))
    case Depth => s.(depth := Clamp(value, 0.0, 1.0))
    case OtherKey => s
  }

  function InitialWord(length: nat): Bits32
    requires 2 <= length <= 32
  {
    var w := And(Number(0xACE1), Mask(length));
    if w == Number(0) then Number(1) else w
  }

  class Modulator {
    const mode: Mode
    const length: nat
    const dacBits: nat
    var reg: Bits32
    var gateOut: bool
    var clockRate: real
    var data: real
    var param: real
    var depth: real
    var phase: real
    var seed: Seed

    function View(): State
      reads this
    {
      State(mode, length, dacBits, reg, gateOut, clockRate, data, param, depth, phase, seed)
    }

    constructor (mode: Mode, length: int, dacBits: int)
      ensures Wf(View()) && this.mode == mode && phase == 0.0 && !gateOut && seed == 0xACE1
      ensures clockRate == 2.0 && data == 0.5 && param == 0.5 && depth == 1.0
      ensures View().length == ClampInt(length, 2, 32)
      ensures View().dacBits == ClampInt(dacBits, 1, if View().length < 8 then View().length else 8)
      ensures View().reg == InitialWord(View().length)
    {
      var n := ClampInt(length, 2, 32);
      this.mode, this.length := mode, n;
      this.dacBits := ClampInt(dacBits, 1, if n < 8 then n else 8);
      reg := InitialWord(n);
      gateOut, clockRate, data, param, depth, phase, seed := false, 2.0, 0.5, 0.5, 1.0, 0.0, 0xACE1;
      InitialWordFits(n);
    }

    method NextRandom() returns (r: real)
      modifies this`seed
      ensures seed == NextSeed(old(seed)) && r == Draw(seed) && 0.0 <= r < 1.0
    {
      seed := NextSeed(seed);
      r := Draw(seed);
    }

    /** The bit that enters next; only turing mode draws a random number. */
    method EnteringBit() returns (newBit: bool)
      requires Wf(View())
      modifies this`seed
      ensures newBit == NewBit(old(View()))
      ensures seed == if mode == Turing then NextSeed(old(seed)) else old(seed)
    {
      match mode {
        case Lfsr =>
          newBit := Fold(And(reg, Taps(length)));
        case Rungler =>
          var msb := ShiftRight(reg, length - 1)[0];
          newBit := (data > param) != msb;
        case Turing =>
          var msb := ShiftRight(reg, length - 1)[0];
          var r := NextRandom();
          newBit := if r < param then !msb else msb;
        case Open =>
          newBit := data > 0.5;
      }
    }

    /** The edge itself. */
    method ClockEdge()
      requires Wf(View())
      modifies this
      ensures View() == Edge(old(View())) && gateOut == reg[0]
    {
      var newBit := EnteringBit();
      reg := ShiftIn(reg, newBit, length);
      gateOut := newBit;
      assert reg[0] == reg[..length][0];
    }

    /** The state change of one tick, and whether an edge fired. */
    method Advance(hz: real) returns (fired: bool)
      requires Wf(View())
      modifies this
      ensures View() == AfterTick(old(View()), hz) && fired == Fires(old(View()), hz)
      ensures fired ==> gateOut == reg[0]
    {
      if hz <= 0.0 {
        return false;
      }
      phase := phase + Increment(clockRate, hz);
      if phase < 1.0 {
        return false;
      }
      phase := phase - 1.0;
      ClockEdge();
      fired := true;
    }

    /** One tick; the gate is high exactly when an edge fired and a one entered. */
    method Tick(hz: real) returns (out: Output)
      requires Wf(View())
      modifies this
      ensures View() == AfterTick(old(View()), hz)
      ensures out == Output(Dac(View()) * depth, Fires(old(View()), hz) && reg[0], reg)
    {
      var fired := Advance(hz);
      out := Output(Dac(View()) * depth, fired && gateOut, reg);
    }

    method Update(key: Key, value: real)
      requires Wf(View())
      modifies this
      ensures View() == AfterUpdate(old(View()), key, value)
    {
      match key {
        case ClockRate => clockRate := Clamp(value, 0.001, 1000.0);
        case Data => data := Clamp(value, 0.0, 1.0);
        case Param => param := Clamp(value, 0.0, 1.0);
        case Depth => depth := Clamp(value, 0.0, 1.0);
        case OtherKey =>
      }
    }
  }

  lemma {:induction false} InitialWordFits(n: nat)
    requires 2 <= n <= 32
    ensures Fits(InitialWord(n), n) && InitialWord(n)[0]
  {
    assert Number(0xACE1)[0];
    assert forall i :: 1 <= i < 32 ==> !Number(1)[i] by {
      assert Number(1)[1..] == ToBits(0, 31);
      ZeroBits(31);
    }
  }

  lemma {:induction false} ZeroBits(n: nat)
    ensures forall i :: 0 <= i < n ==> !ToBits(0, n)[i]
  {
    if n > 0 {
      ZeroBits(n - 1);
    }
  }

  // ---------------------------------------------------------------------------
  // The converter
  // ---------------------------------------------------------------------------

  lemma {:induction false} ValuePadded(s: seq<bool>, d: nat)
    requires d <= |s| && forall i :: d <= i < |s| ==> !s[i]
    ensures Value(s) == Value(s[..d])
  {
    if d == 0 {
      ValueClear(s);
    } else {
      ValuePadded(s[1..], d - 1);
      assert s[..d][1..] == s[1..][..d - 1];
    }
  }

  /** Where `v` lies among 0 to `max`, from -1 to 1. */
  predicate Placed(x: real, v: nat, max: nat) { -1.0 <= x <= 1.0 && (x + 1.0) * max as real == 2.0 * v as real }

  lemma {:induction false} DacTop(s: State)
    requires Wf(s)
    ensures var v, max := Value(s.reg[s.length - s.dacBits..s.length]), Pow2(s.dacBits) - 1;
            0 <= v <= max && max > 0 && Dac(s) == Scaled(v, max)
  {
    var top := s.reg[s.length - s.dacBits..s.length];
    ValueBound(top);
    assert Pow2(s.dacBits) == 2 * Pow2(s.dacBits - 1);
    RawValue(s);
    MaskValue(s.dacBits);
    DacIsScaled(s, Value(top), Pow2(s.dacBits) - 1);
  }

  /** The output reads the oldest dacBits bits as a number and scales it onto [-1, 1]. */
  lemma {:induction false} DacReadsOldestBits(s: State)
    requires Wf(s)
    ensures Placed(Dac(s), Value(s.reg[s.length - s.dacBits..s.length]), Pow2(s.dacBits) - 1)
  {
    DacTop(s);
    ScaledRange(Value(s.reg[s.length - s.dacBits..s.length]), Pow2(s.dacBits) - 1);
  }

  /** Shifting right by `k` and masking keeps `n` bits from bit `k` on. */
  lemma {:induction false} ShiftMasked(x: Bits32, k: nat, n: nat)
    requires k + n <= 32
    ensures And(ShiftRight(x, k), Mask(n))[..n] == x[k..k + n]
    ensures forall i :: n <= i < 32 ==> !And(ShiftRight(x, k), Mask(n))[i]
  {
    var r, low := And(ShiftRight(x, k), Mask(n)), x[k..k + n];
    forall i | 0 <= i < n ensures r[i] == low[i] {
      assert ShiftRight(x, k)[i] == x[i + k];
    }
    assert r[..n] == low;
  }

  lemma {:induction false} RawValue(s: State)
    requires Wf(s)
    ensures Value(Raw(s)) == Value(s.reg[s.length - s.dacBits..s.length])
  {
    ShiftMasked(s.reg, s.length - s.dacBits, s.dacBits);
    ValuePadded(Raw(s), s.dacBits);
  }

  lemma {:induction false} DacIsScaled(s: State, v: nat, max: nat)
    requires Wf(s) && v == Value(Raw(s)) && max == Value(Mask(s.dacBits)) && max > 0
    ensures Dac(s) == Scaled(v, max)
  {
  }

  lemma {:induction false} ScaledRange(v: nat, max: nat)
    requires v <= max && max > 0
    ensures Placed(Scaled(v, max), v, max)
  {
    var q := v as real / max as real;
    assert q * max as real == v as real;
    assert 0.0 <= q <= 1.0;
  }
}
