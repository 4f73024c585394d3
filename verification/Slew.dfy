/**
 The slew limiter and function generator (src/slew_modulator.cpp).  Levels and times are reals; the filter
 coefficient 1 - exp(-2.2 / (time * rate)) is an arbitrary function with values above 0 and at most 1.
 */
module Slew {
  import opened Numbers

  datatype Stage = Idle | Rising | Falling

  datatype Key = Rise | Fall | Input | Depth | Cycle | Trig | OtherKey

  datatype State = State(
    rise: real, fall: real, input: real, depth: real, cycle: bool,
    stage: Stage, current: real, trigPending: bool, eor: bool, eoc: bool)

  datatype Output = Output(cv: real, gate: bool, gate2: bool)

  /** The coefficient as a function of the slew time and the tick rate. */
  type Coeff = (real, real) -> real

  ghost predicate Proper(c: Coeff) {
    forall time, hz :: time > 0.0 && hz > 0.0 ==> 0.0 < c(time, hz) <= 1.0
  }

  predicate Wf(s: State) {
    && s.rise > 0.0 && s.fall > 0.0 && -1.0 <= s.input <= 1.0 && 0.0 <= s.depth <= 1.0
    && -1.0 <= s.current <= 1.0
  }

  const THRESHOLD := 0.001

  // ---------------------------------------------------------------------------
  // Steps
  // ---------------------------------------------------------------------------

  /** current += (target - current) * coeff. */
  function Toward(current: real, target: real, k: real): real { current + (target - current) * k }

  /** After a pending trigger and the restart of cycle mode. */
  function Started(s: State): State {
    var a := if s.trigPending then s.(trigPending := false, current := -1.0, stage := Rising) else s;
    if a.cycle && a.stage == Idle then a.(stage := Rising) else a
  }

  /** The level moves, and at either end the stage changes. */
  function Moved(s: State, c: Coeff, hz: real): State {
    match s.stage
    case Idle =>
      s.(current := Toward(s.current, s.input, c(if s.input >= s.current then s.rise else s.fall, hz)))
    case Rising =>
      var level := Toward(s.current, 1.0, c(s.rise, hz));
      if level >= 1.0 - THRESHOLD then s.(current := 1.0, eor := true, stage := Falling) else s.(current := level)
    case Falling =>
      var level := Toward(s.current, -1.0, c(s.fall, hz));
      if level <= -1.0 + THRESHOLD then s.(current := -1.0, eoc := true, stage := Idle) else s.(current := level)
  }

  function AfterTick(s: State, c: Coeff, hz: real): State {
    var quiet := s.(eor := false, eoc := false);
    if hz <= 0.0 then quiet else Moved(Started(quiet), c, hz)
  }

  function AfterUpdate(s: State, key: Key, value: real): State {
    match key
    case Rise => s.(rise := Clamp(value, 0.001, 10.0))
    case Fall => s.(fall := Clamp(value, 0.001, 10.0))
    case Input => s.(input := Clamp(value, -1.0, 1.0))
    case Depth => s.(depth := Clamp(value, 0.0, 1.0))
    case Cycle => s.(cycle := value > 0.5)
    case Trig => if value > 0.5 then s.(trigPending := true) else s
    case OtherKey => s
  }

  class Modulator {
    const coeff: Coeff
    var rise: real
    var fall: real
    var input: real
    var depth: real
    var cycle: bool
    var stage: Stage
    var current: real
    var trigPending: bool
    var eor: bool
    var eoc: bool

    function View(): State
      reads this
    {
      State(rise, fall, input, depth, cycle, stage, current, trigPending, eor, eoc)
    }

    constructor (c: Coeff)
      ensures View() == State(0.1, 0.1, 0.0, 1.0, false, Idle, 0.0, false, false, false)
      ensures coeff == c && Wf(View())
    {
      coeff := c;
      rise, fall, input, depth, cycle := 0.1, 0.1, 0.0, 1.0, false;
      stage, current, trigPending, eor, eoc := Idle, 0.0, false, false, false;
    }

    method Tick(hz: real) returns (out: Output)
      modifies this
      ensures View() == AfterTick(old(View()), coeff, hz)
      ensures out == Output(current * depth, eor, eoc)
    {
      Advance(hz);
      out := Output(current * depth, eor, eoc);
    }

    /** The state change of one tick. */
    method Advance(hz: real)
      modifies this
      ensures View() == AfterTick(old(View()), coeff, hz)
    {
      eor, eoc := false, false;
      if hz <= 0.0 {
        return;
      }
      if trigPending {
        trigPending := false;
        current := -1.0;
        stage := Rising;
      }
      if cycle && stage == Idle {
        stage := Rising;
      }
      Move(hz);
    }

    method Move(hz: real)
      modifies this
      ensures View() == Moved(old(View()), coeff, hz)
    {
      if stage == Idle {
        var target := input;
        var time := if target >= current then rise else fall;
        current := Toward(current, target, coeff(time, hz));
      } else {
        var target := if stage == Rising then 1.0 else -1.0;
        var time := if stage == Rising then rise else fall;
        current := Toward(current, target, coeff(time, hz));
        if stage == Rising && current >= 1.0 - THRESHOLD {
          current := 1.0;
          eor := true;
          stage := Falling;
        } else if stage == Falling && current <= -1.0 + THRESHOLD {
          current := -1.0;
          eoc := true;
          stage := Idle;
        }
      }
    }

    method Update(key: Key, value: real)
      modifies this
      ensures View() == AfterUpdate(old(View()), key, value)
    {
      match key {
        case Rise => rise := Clamp(value, 0.001, 10.0);
        case Fall => fall := Clamp(value, 0.001, 10.0);
        case Input => input := Clamp(value, -1.0, 1.0);
        case Depth => depth := Clamp(value, 0.0, 1.0);
        case Cycle => cycle := value > 0.5;
        case Trig => if value > 0.5 { trigPending := true; }
        case OtherKey =>
      }
    }
  }
}
