/**
 Parameter updates of the modulators that keep plain parameters (src/slew_modulator.cpp,
 src/shift_register_modulator.cpp and src/stochastic_modulator.cpp, update): the one parameter named takes the value,
 held within its range, and nothing else changes.
 */
module Parameters {
  import opened Numbers
  import S = Slew
  import R = ShiftRegister
  import T = Stochastic

  lemma {:induction false} SlewUpdate(s: S.State, key: S.Key, value: real)
    ensures var t := S.AfterUpdate(s, key, value);
            match key
            case Rise => t == s.(rise := t.rise) && Held(t.rise, value, 0.001, 10.0)
            case Fall => t == s.(fall := t.fall) && Held(t.fall, value, 0.001, 10.0)
            case Input => t == s.(input := t.input) && Held(t.input, value, -1.0, 1.0)
            case Depth => t == s.(depth := t.depth) && Held(t.depth, value, 0.0, 1.0)
            case Cycle => t == s.(cycle := t.cycle) && (t.cycle <==> value > 0.5)
            case Trig => t == s.(trigPending := t.trigPending) && (t.trigPending <==> s.trigPending || value > 0.5)
            case OtherKey => t == s
  {
  }

  lemma {:induction false} RegisterUpdate(s: R.State, key: R.Key, value: real)
    requires R.Wf(s)
    ensures var t := R.AfterUpdate(s, key, value);
            match key
            case ClockRate => t == s.(clockRate := t.clockRate) && Held(t.clockRate, value, 0.001, 1000.0)
            case Data => t == s.(data := t.data) && Held(t.data, value, 0.0, 1.0)
            case Param => t == s.(param := t.param) && Held(t.param, value, 0.0, 1.0)
            case Depth => t == s.(depth := t.depth) && Held(t.depth, value, 0.0, 1.0)
            case OtherKey => t == s
  {
  }

  /** `n` is the integer nearest to `x`, held between two bounds. */
  ghost predicate HeldInt(n: int, x: real, lo: int, hi: int) {
    exists m: int :: Nearest(m, x) && n == (if m < lo then lo else if m > hi then hi else m)
  }

  lemma {:induction false} StochasticUpdate(s: T.State, key: T.Key, value: real)
    ensures var t := T.AfterUpdate(s, key, value);
            match key
            case Rate => t == s.(rate := t.rate) && Held(t.rate, value, 0.001, 100.0)
            case Bias => t == s.(bias := t.bias) && Held(t.bias, value, 0.0, 1.0)
            case Jitter => t == s.(jitter := t.jitter) && Held(t.jitter, value, 0.0, 1.0)
            case Spread => t == s.(spread := t.spread) && Held(t.spread, value, 0.0, 1.0)
            case DejaVu => t == s.(dejaVu := t.dejaVu) && Held(t.dejaVu, value, 0.0, 1.0)
            case Depth => t == s.(depth := t.depth) && Held(t.depth, value, 0.0, 1.0)
            case Length => t == s.(length := t.length) && HeldInt(t.length, value, 1, 16)
            case Steps => t == s.(steps := t.steps) && HeldInt(t.steps, value, 0, 16)
            case OtherKey => t == s
  {
    RoundIsNearest(value);
  }
}
