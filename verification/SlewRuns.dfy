/** Whole runs of the slew modulator: its range, the order of its end pulses, and how soon a stage ends. */
module SlewRuns {
  import opened Slew

  datatype Event = Tick(hz: real) | Update(key: Key, value: real)

  function Step(s: State, c: Coeff, e: Event): State {
    match e
    case Tick(hz) => AfterTick(s, c, hz)
    case Update(key, value) => AfterUpdate(s, key, value)
  }

  ghost predicate StepAt(r: seq<State>, c: Coeff, es: seq<Event>, k: nat)
    requires k < |es| < |r|
  {
    r[k + 1] == Step(r[k], c, es[k])
  }

  /** The states `r` that the events `es` lead through, from any well-formed state. */
  ghost predicate IsRun(r: seq<State>, c: Coeff, es: seq<Event>) {
    && |r| == |es| + 1 && Wf(r[0]) && Proper(c)
    && forall k :: 0 <= k < |es| ==> StepAt(r, c, es, k)
  }

  // ---------------------------------------------------------------------------
  // Range
  // ---------------------------------------------------------------------------

  lemma {:induction false} ProductSign(x: real, y: real)
    requires x >= 0.0 && y >= 0.0
    ensures x * y >= 0.0
  {
  }

  lemma {:induction false} ProductShrinks(x: real, k: real)
    requires x >= 0.0 && k <= 1.0
    ensures x * k <= x
  {
    ProductSign(x, 1.0 - k);
  }

  lemma {:induction false} TowardUp(x: real, target: real, k: real)
    requires 0.0 <= k <= 1.0 && x <= target
    ensures x <= Toward(x, target, k) <= target
  {
    ProductSign(target - x, k);
    ProductShrinks(target - x, k);
  }

  lemma {:induction false} TowardDown(x: real, target: real, k: real)
    requires 0.0 <= k <= 1.0 && x >= target
    ensures target <= Toward(x, target, k) <= x
  {
    TowardUp(-x, -target, k);
  }

  lemma {:induction false} MovedInRange(s: State, c: Coeff, hz: real)
    requires Wf(s) && Proper(c) && hz > 0.0
    ensures Wf(Moved(s, c, hz))
  {
    var k := c(if s.stage == Rising || (s.stage == Idle && s.input >= s.current) then s.rise else s.fall, hz);
    match s.stage {
      case Idle =>
        if s.input >= s.current {
          TowardUp(s.current, s.input, k);
        } else {
          TowardDown(s.current, s.input, k);
        }
      case Rising => TowardUp(s.current, 1.0, k);
      case Falling => TowardDown(s.current, -1.0, k);
    }
  }

  lemma {:induction false} StepInRange(s: State, c: Coeff, e: Event)
    requires Wf(s) && Proper(c)
    ensures Wf(Step(s, c, e))
  {
    if e.Tick? && e.hz > 0.0 {
      var t := Started(s.(eor := false, eoc := false));
      assert Wf(t);
      MovedInRange(t, c, e.hz);
    }
  }

  /** In every run the level stays between -1 and 1. */
  lemma {:induction false} LevelInRange(r: seq<State>, c: Coeff, es: seq<Event>, k: nat)
    requires IsRun(r, c, es) && k <= |es|
    ensures Wf(r[k])
  {
    if k > 0 {
      LevelInRange(r, c, es, k - 1);
      assert StepAt(r, c, es, k - 1);
      StepInRange(r[k - 1], c, es[k - 1]);
    }
  }

  // ---------------------------------------------------------------------------
  // End pulses
  // ---------------------------------------------------------------------------

  /** Event `k` is a tick that reports the end of a rise. */
  predicate EorAt(r: seq<State>, es: seq<Event>, k: nat)
    requires k < |es| < |r|
  {
    es[k].Tick? && r[k + 1].eor
  }

  /** Event `k` is a tick that reports the end of a cycle. */
  predicate EocAt(r: seq<State>, es: seq<Event>, k: nat)
    requires k < |es| < |r|
  {
    es[k].Tick? && r[k + 1].eoc
  }

  predicate TriggerAt(es: seq<Event>, k: nat)
    requires k < |es|
  {
    es[k].Update? && es[k].key == Trig && es[k].value > 0.5
  }

  /** What one event can do to the stage and the pulses. */
  lemma {:induction false} StageStep(r: seq<State>, c: Coeff, es: seq<Event>, k: nat)
    requires IsRun(r, c, es) && k < |es|
    ensures !(EorAt(r, es, k) && EocAt(r, es, k))
    ensures EorAt(r, es, k) ==> r[k + 1].stage == Falling && !r[k + 1].trigPending
    ensures EorAt(r, es, k) ==> r[k].stage != Falling || r[k].trigPending
    ensures EocAt(r, es, k) ==> r[k + 1].stage == Idle && r[k].stage == Falling && !r[k].trigPending
    ensures r[k + 1].stage == Falling && r[k].stage != Falling ==> EorAt(r, es, k)
    ensures r[k + 1].stage != Falling && r[k].stage == Falling ==> EocAt(r, es, k) || r[k].trigPending
    ensures r[k + 1].trigPending ==> r[k].trigPending || TriggerAt(es, k)
  {
    assert StepAt(r, c, es, k);
  }

  /** End of rise and end of cycle never coincide. */
  lemma {:induction false} PulsesNeverCoincide(r: seq<State>, c: Coeff, es: seq<Event>, k: nat)
    requires IsRun(r, c, es) && k < |es|
    ensures !(EorAt(r, es, k) && EocAt(r, es, k))
  {
    StageStep(r, c, es, k);
  }

  /** The falling stage is only entered by an end of rise. */
  lemma {:induction false} FallingNeedsRise(r: seq<State>, c: Coeff, es: seq<Event>, i: nat, j: nat)
    requires IsRun(r, c, es) && i <= j <= |es| && r[i].stage != Falling && r[j].stage == Falling
    ensures exists m :: i <= m < j && EorAt(r, es, m)
  {
    if r[j - 1].stage == Falling {
      FallingNeedsRise(r, c, es, i, j - 1);
    } else {
      StageStep(r, c, es, j - 1);
      assert EorAt(r, es, j - 1);
    }
  }

  /** Between two ends of cycle there is an end of rise. */
  lemma {:induction false} RiseBetweenCycles(r: seq<State>, c: Coeff, es: seq<Event>, i: nat, j: nat)
    requires IsRun(r, c, es) && i < j < |es| && EocAt(r, es, i) && EocAt(r, es, j)
    ensures exists m :: i < m < j && EorAt(r, es, m)
  {
    StageStep(r, c, es, i);
    StageStep(r, c, es, j);
    FallingNeedsRise(r, c, es, i + 1, j);
  }

  ghost predicate NoTrigger(es: seq<Event>, i: nat, j: nat)
    requires j <= |es|
  {
    forall m :: i <= m < j ==> !TriggerAt(es, m)
  }

  /** Without a trigger the falling stage is only left by an end of cycle. */
  lemma {:induction false} FallingLasts(r: seq<State>, c: Coeff, es: seq<Event>, i: nat, j: nat)
    requires IsRun(r, c, es) && i <= j <= |es| && NoTrigger(es, i, j)
    requires r[i].stage == Falling && !r[i].trigPending
    requires forall m :: i <= m < j ==> !EocAt(r, es, m)
    ensures r[j].stage == Falling && !r[j].trigPending
  {
    if i < j {
      FallingLasts(r, c, es, i, j - 1);
      StageStep(r, c, es, j - 1);
      assert !EocAt(r, es, j - 1) && !TriggerAt(es, j - 1);
    }
  }

  /** Between two ends of rise there is an end of cycle, unless a trigger came in between. */
  lemma {:induction false} CycleBetweenRises(r: seq<State>, c: Coeff, es: seq<Event>, i: nat, j: nat)
    requires IsRun(r, c, es) && i < j < |es| && EorAt(r, es, i) && EorAt(r, es, j) && NoTrigger(es, i, j)
    ensures exists m :: i < m < j && EocAt(r, es, m)
  {
    if forall m :: i < m < j ==> !EocAt(r, es, m) {
      StageStep(r, c, es, i);
      FallingLasts(r, c, es, i + 1, j);
      StageStep(r, c, es, j);
    }
  }

  // ---------------------------------------------------------------------------
  // How long a stage lasts
  // ---------------------------------------------------------------------------

  /** Twice the n-th power of x. */
  function Decay(x: real, n: nat): real { if n == 0 then 2.0 else Decay(x, n - 1) * x }

  /** How far the level still has to go. */
  function Gap(s: State): real { if s.stage == Rising then 1.0 - s.current else s.current + 1.0 }

  predicate LiveTick(e: Event) { e.Tick? && e.hz > 0.0 }

  /** The ticks at a positive rate among events i to k. */
  function LiveTicks(es: seq<Event>, i: nat, k: nat): nat
    requires i <= k <= |es|
  {
    if i == k then 0 else LiveTicks(es, i, k - 1) + if LiveTick(es[k - 1]) then 1 else 0
  }

  /** The coefficients at a moment are at least `least`. */
  ghost predicate AtLeast(s: State, c: Coeff, e: Event, least: real) {
    LiveTick(e) ==> c(s.rise, e.hz) >= least && c(s.fall, e.hz) >= least
  }

  /** The stage that runs ends at event `k`. */
  predicate EndsAt(r: seq<State>, es: seq<Event>, stage: Stage, k: nat)
    requires k < |es| < |r|
  {
    if stage == Rising then EorAt(r, es, k) else EocAt(r, es, k)
  }

  lemma {:induction false} Monotone(x: real, a: real, b: real)
    requires x >= 0.0 && a <= b
    ensures x * a <= x * b
  {
    ProductSign(x, b - a);
  }

  lemma {:induction false} ShrinksUp(x: real, target: real, k: real, least: real)
    requires 0.0 < least <= k <= 1.0 && x <= target
    ensures target - Toward(x, target, k) <= (1.0 - least) * (target - x)
  {
    Monotone(target - x, least, k);
  }

  lemma {:induction false} ShrinksDown(x: real, target: real, k: real, least: real)
    requires 0.0 < least <= k <= 1.0 && x >= target
    ensures Toward(x, target, k) - target <= (1.0 - least) * (x - target)
  {
    ShrinksUp(-x, -target, k, least);
  }

  lemma {:induction false} DecayNonneg(x: real, n: nat)
    requires 0.0 <= x <= 1.0
    ensures 0.0 <= Decay(x, n)
  {
    if n > 0 {
      DecayNonneg(x, n - 1);
      ProductSign(Decay(x, n - 1), x);
    }
  }

  lemma {:induction false} DecayNext(x: real, n: nat)
    requires 0.0 <= x <= 1.0
    ensures Decay(x, n + 1) <= Decay(x, n)
  {
    assert Decay(x, n + 1) == Decay(x, n) * x;
    DecayNonneg(x, n);
    ProductShrinks(Decay(x, n), x);
  }

  lemma {:induction false} DecayFalls(x: real, m: nat, n: nat)
    requires 0.0 <= x <= 1.0 && m <= n
    ensures Decay(x, n) <= Decay(x, m)
  {
    if m < n {
      DecayFalls(x, m, n - 1);
      DecayNext(x, n - 1);
    }
  }

  lemma {:induction false} DecayBounds(gap: real, next: real, x: real, n: nat)
    requires 0.0 <= x <= 1.0 && gap <= Decay(x, n) && next <= x * gap
    ensures next <= Decay(x, n + 1)
  {
    assert Decay(x, n + 1) == Decay(x, n) * x;
    Monotone(x, gap, Decay(x, n));
  }

  /** A running stage either ends or closes its gap by the coefficient. */
  lemma {:induction false} GapStep(s: State, c: Coeff, hz: real, least: real, n: nat)
    requires Wf(s) && Proper(c) && hz > 0.0 && s.stage != Idle && !s.trigPending && 0.0 < least <= 1.0
    requires c(s.rise, hz) >= least && c(s.fall, hz) >= least && Gap(s) <= Decay(1.0 - least, n)
    ensures var t := AfterTick(s, c, hz);
            || (if s.stage == Rising then t.eor else t.eoc)
            || (t.stage == s.stage && !t.trigPending && THRESHOLD < Gap(t) <= Decay(1.0 - least, n + 1))
  {
    if s.stage == Rising {
      ShrinksUp(s.current, 1.0, c(s.rise, hz), least);
      DecayBounds(Gap(s), 1.0 - Toward(s.current, 1.0, c(s.rise, hz)), 1.0 - least, n);
    } else {
      ShrinksDown(s.current, -1.0, c(s.fall, hz), least);
      DecayBounds(Gap(s), Toward(s.current, -1.0, c(s.fall, hz)) + 1.0, 1.0 - least, n);
    }
  }

  /** While a stage runs on, its gap is bounded by the power of the number of live ticks. */
  lemma {:induction false} StageRunsOn(r: seq<State>, c: Coeff, es: seq<Event>, j: nat, k: nat, least: real)
    requires IsRun(r, c, es) && j <= k <= |es| && NoTrigger(es, j, k) && 0.0 < least <= 1.0
    requires r[j].stage != Idle && !r[j].trigPending
    requires forall m :: j <= m < k ==> AtLeast(r[m], c, es[m], least) && !EndsAt(r, es, r[j].stage, m)
    ensures r[k].stage == r[j].stage && !r[k].trigPending
    ensures Gap(r[k]) <= Decay(1.0 - least, LiveTicks(es, j, k))
    ensures LiveTicks(es, j, k) > 0 ==> Gap(r[k]) > THRESHOLD
  {
    LevelInRange(r, c, es, k);
    if j < k {
      StageRunsOn(r, c, es, j, k - 1, least);
      StageGoesOn(r, c, es, j, k - 1, least);
    }
  }

  lemma {:induction false} StageGoesOn(r: seq<State>, c: Coeff, es: seq<Event>, j: nat, k: nat, least: real)
    requires IsRun(r, c, es) && j <= k < |es| && !TriggerAt(es, k) && 0.0 < least <= 1.0
    requires r[j].stage != Idle && r[k].stage == r[j].stage && !r[k].trigPending
    requires AtLeast(r[k], c, es[k], least) && !EndsAt(r, es, r[j].stage, k)
    requires Gap(r[k]) <= Decay(1.0 - least, LiveTicks(es, j, k))
    ensures r[k + 1].stage == r[j].stage && !r[k + 1].trigPending
    ensures Gap(r[k + 1]) <= Decay(1.0 - least, LiveTicks(es, j, k + 1))
    ensures if LiveTick(es[k]) then Gap(r[k + 1]) > THRESHOLD else Gap(r[k + 1]) == Gap(r[k])
  {
    assert StepAt(r, c, es, k);
    if LiveTick(es[k]) {
      LevelInRange(r, c, es, k);
      GapStep(r[k], c, es[k].hz, least, LiveTicks(es, j, k));
    }
  }

  /**
   With coefficients of at least `least` and no trigger, a rise or a fall ends within any number of live
   ticks n with 2 (1 - least)^n <= 0.001.
   */
  lemma {:induction false} StageEnds(r: seq<State>, c: Coeff, es: seq<Event>, j: nat, k: nat, least: real, n: nat)
    requires IsRun(r, c, es) && j <= k <= |es| && NoTrigger(es, j, k) && 0.0 < least <= 1.0
    requires r[j].stage != Idle && !r[j].trigPending
    requires forall m :: j <= m < k ==> AtLeast(r[m], c, es[m], least)
    requires Decay(1.0 - least, n) <= THRESHOLD && LiveTicks(es, j, k) >= n
    ensures exists m :: j <= m < k && EndsAt(r, es, r[j].stage, m)
  {
    if forall m :: j <= m < k ==> !EndsAt(r, es, r[j].stage, m) {
      StageRunsOn(r, c, es, j, k, least);
      DecayFalls(1.0 - least, n, LiveTicks(es, j, k));
    }
  }
}
