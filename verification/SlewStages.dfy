/**
 What a live tick of the slew modulator does to its level and its stage (src/slew_modulator.cpp, tick), and over whole
 runs: a trigger restarts the rise from -1, cycle mode restarts it by itself, and an idle level closes in on the input.
 */
module SlewStages {
  import opened Slew
  import opened SlewRuns

  /** Where a stage is heading, and in what time. */
  function Goal(s: State, stage: Stage): real {
    match stage
    case Idle => s.input
    case Rising => 1.0
    case Falling => -1.0
  }

  function TimeFor(s: State, stage: Stage, level: real): real {
    match stage
    case Idle => if s.input >= level then s.rise else s.fall
    case Rising => s.rise
    case Falling => s.fall
  }

  /** The gap to the goal shrinks by the factor 1 - k. */
  predicate Closes(before: real, goal: real, k: real, after: real) { goal - after == (1.0 - k) * (goal - before) }

  lemma {:induction false} TowardCloses(x: real, goal: real, k: real)
    ensures Closes(x, goal, k, Toward(x, goal, k))
  {
  }

  /** A tick from `level` in `stage`: the gap closes, and within 0.001 of the end of a rise or a fall the stage ends. */
  ghost predicate MovesFrom(s: State, stage: Stage, level: real, c: Coeff, hz: real, t: State) {
    exists next: real {:trigger Closes(level, Goal(s, stage), c(TimeFor(s, stage, level), hz), next)} ::
      && Closes(level, Goal(s, stage), c(TimeFor(s, stage, level), hz), next)
      && t.eor == (stage == Rising && next >= 0.999) && t.eoc == (stage == Falling && next <= -0.999)
      && t.current == (if t.eor then 1.0 else if t.eoc then -1.0 else next)
      && t.stage == (if t.eor then Falling else if t.eoc then Idle else stage)
  }

  predicate SameSettings(s: State, t: State) {
    t.rise == s.rise && t.fall == s.fall && t.input == s.input && t.depth == s.depth && t.cycle == s.cycle
  }

  lemma {:induction false} MovedMoves(s: State, c: Coeff, hz: real)
    requires !s.eor && !s.eoc
    ensures MovesFrom(s, s.stage, s.current, c, hz, Moved(s, c, hz)) && SameSettings(s, Moved(s, c, hz))
    ensures Moved(s, c, hz).trigPending == s.trigPending
  {
    var goal, k := Goal(s, s.stage), c(TimeFor(s, s.stage, s.current), hz);
    TowardCloses(s.current, goal, k);
    assert Closes(s.current, goal, k, Toward(s.current, goal, k));
  }

  /** The stage that a live tick runs, and the level it starts from. */
  function RunsStage(s: State): Stage {
    if s.trigPending then Rising else if s.cycle && s.stage == Idle then Rising else s.stage
  }

  function StartsFrom(s: State): real { if s.trigPending then -1.0 else s.current }

  /** One live tick in full; a dead tick only clears the pulses. */
  lemma {:induction false} TickInFull(s: State, c: Coeff, hz: real)
    ensures var t := AfterTick(s, c, hz);
            if hz > 0.0 then
              MovesFrom(s, RunsStage(s), StartsFrom(s), c, hz, t) && !t.trigPending && SameSettings(s, t)
            else t == s.(eor := false, eoc := false)
  {
    if hz > 0.0 {
      var u := Started(s.(eor := false, eoc := false));
      MovedMoves(u, c, hz);
      assert Goal(u, u.stage) == Goal(s, u.stage);
      assert TimeFor(u, u.stage, u.current) == TimeFor(s, u.stage, u.current);
    }
  }

  // ---------------------------------------------------------------------------
  // Triggers and cycles
  // ---------------------------------------------------------------------------

  /** A trigger stays pending until the next live tick. */
  lemma {:induction false} TriggerWaits(r: seq<State>, c: Coeff, es: seq<Event>, j: nat, k: nat)
    requires IsRun(r, c, es) && j < k <= |es| && TriggerAt(es, j)
    requires forall m :: j < m < k ==> !LiveTick(es[m])
    ensures r[k].trigPending
  {
    if j + 1 < k {
      TriggerWaits(r, c, es, j, k - 1);
    }
    assert StepAt(r, c, es, k - 1);
  }

  /** In every run, the first live tick after a trigger starts a rise from -1, whatever was under way. */
  lemma {:induction false} TriggerRestarts(r: seq<State>, c: Coeff, es: seq<Event>, j: nat, k: nat)
    requires IsRun(r, c, es) && j < k < |es| && TriggerAt(es, j) && LiveTick(es[k])
    requires forall m :: j < m < k ==> !LiveTick(es[m])
    ensures MovesFrom(r[k], Rising, -1.0, c, es[k].hz, r[k + 1]) && r[k + 1].stage != Idle
  {
    TriggerWaits(r, c, es, j, k);
    assert StepAt(r, c, es, k);
    TickInFull(r[k], c, es[k].hz);
  }

  /** With cycle on, an idle modulator rises again from where it is on the next live tick. */
  lemma {:induction false} CycleRestarts(r: seq<State>, c: Coeff, es: seq<Event>, k: nat)
    requires IsRun(r, c, es) && k < |es| && LiveTick(es[k]) && r[k].cycle && r[k].stage == Idle && !r[k].trigPending
    ensures MovesFrom(r[k], Rising, r[k].current, c, es[k].hz, r[k + 1]) && r[k + 1].stage != Idle
  {
    assert StepAt(r, c, es, k);
    TickInFull(r[k], c, es[k].hz);
  }

  /** So in a run that keeps cycle on, an end of cycle is followed by a rise on the very next live tick. */
  lemma {:induction false} CycleGoesOn(r: seq<State>, c: Coeff, es: seq<Event>, j: nat, k: nat)
    requires IsRun(r, c, es) && j < k < |es| && EocAt(r, es, j) && LiveTick(es[k])
    requires forall m :: j < m < k ==> !LiveTick(es[m]) && !TriggerAt(es, m)
    requires r[k].cycle
    ensures MovesFrom(r[k], Rising, -1.0, c, es[k].hz, r[k + 1]) && r[k + 1].stage != Idle
  {
    StageStep(r, c, es, j);
    assert StepAt(r, c, es, j);
    RestsAt(r, c, es, j, j + 1);
    RestsAt(r, c, es, j, k);
    CycleRestarts(r, c, es, k);
  }

  lemma {:induction false} RestsAt(r: seq<State>, c: Coeff, es: seq<Event>, j: nat, k: nat)
    requires IsRun(r, c, es) && j < k <= |es| && EocAt(r, es, j)
    requires forall m :: j < m < k ==> !LiveTick(es[m]) && !TriggerAt(es, m)
    ensures r[k].stage == Idle && r[k].current == -1.0 && !r[k].trigPending
  {
    assert StepAt(r, c, es, k - 1);
    if k == j + 1 {
      StageStep(r, c, es, j);
    } else {
      RestsAt(r, c, es, j, k - 1);
      assert !TriggerAt(es, k - 1);
    }
  }

  // ---------------------------------------------------------------------------
  // Idle
  // ---------------------------------------------------------------------------

  /** Idle without cycle mode, trigger or a change of the input. */
  ghost predicate Lags(r: seq<State>, j: nat, k: nat)
    requires k < |r|
  {
    forall m :: j <= m <= k ==> !r[m].cycle && !r[m].trigPending && r[m].input == r[j].input
  }

  /** How far the level is from the input. */
  function Away(s: State): real { if s.input >= s.current then s.input - s.current else s.current - s.input }

  lemma {:induction false} IdleStep(s: State, c: Coeff, hz: real, least: real)
    requires Wf(s) && Proper(c) && hz > 0.0 && s.stage == Idle && !s.cycle && !s.trigPending && 0.0 < least <= 1.0
    requires c(s.rise, hz) >= least && c(s.fall, hz) >= least
    ensures var t := AfterTick(s, c, hz);
            && t.stage == Idle && Away(t) <= (1.0 - least) * Away(s)
            && (s.current <= t.current <= s.input || s.input <= t.current <= s.current)
  {
    if s.input >= s.current {
      TowardUp(s.current, s.input, c(s.rise, hz));
      ShrinksUp(s.current, s.input, c(s.rise, hz), least);
    } else {
      TowardDown(s.current, s.input, c(s.fall, hz));
      ShrinksDown(s.current, s.input, c(s.fall, hz), least);
    }
  }

  lemma {:induction false} IdleNext(r: seq<State>, c: Coeff, es: seq<Event>, j: nat, k: nat, least: real)
    requires IsRun(r, c, es) && j <= k < |es| && Lags(r, j, k + 1) && r[k].stage == Idle && 0.0 < least <= 1.0
    requires AtLeast(r[k], c, es[k], least)
    ensures r[k + 1].stage == Idle
    ensures Away(r[k + 1]) <= if LiveTick(es[k]) then (1.0 - least) * Away(r[k]) else Away(r[k])
  {
    assert StepAt(r, c, es, k);
    LevelInRange(r, c, es, k);
    assert r[k].input == r[j].input && r[k + 1].input == r[j].input && !r[k].cycle && !r[k].trigPending;
    if LiveTick(es[k]) {
      IdleStep(r[k], c, es[k].hz, least);
    }
  }

  /**
   With the input held and coefficients of at least `least`, the level of an idle modulator is after n live ticks within
   2 (1 - least)^n of the input.
   */
  lemma {:induction false} IdleClosesIn(r: seq<State>, c: Coeff, es: seq<Event>, j: nat, k: nat, least: real)
    requires IsRun(r, c, es) && j <= k <= |es| && Lags(r, j, k) && r[j].stage == Idle && 0.0 < least <= 1.0
    requires forall m :: j <= m < k ==> AtLeast(r[m], c, es[m], least)
    ensures r[k].stage == Idle && Away(r[k]) <= Decay(1.0 - least, LiveTicks(es, j, k))
  {
    if j == k {
      LevelInRange(r, c, es, j);
    } else {
      IdleClosesIn(r, c, es, j, k - 1, least);
      assert AtLeast(r[k - 1], c, es[k - 1], least);
      IdleNext(r, c, es, j, k - 1, least);
      if LiveTick(es[k - 1]) {
        DecayBounds(Away(r[k - 1]), Away(r[k]), 1.0 - least, LiveTicks(es, j, k - 1));
      }
    }
  }
}
