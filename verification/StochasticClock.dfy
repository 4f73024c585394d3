/**
 When the stochastic modulator's clock fires (src/stochastic_modulator.cpp, tick): how its phase accounts for time
 against thresholds that are drawn anew at every event.
 */
module StochasticClock {
  import opened Lcg
  import opened Stochastic
  import opened DejaVuRuns

  // ---------------------------------------------------------------------------
  // The account of time
  // ---------------------------------------------------------------------------

  /** What one happening adds to the clock: the clock's periods per tick. */
  function Added(s: State, e: Happening): real { if e.Tick? && e.hz > 0.0 then s.rate / e.hz else 0.0 }

  function Elapsed(r: seq<State>, es: seq<Happening>, k: nat): real
    requires k <= |es| < |r|
  {
    if k == 0 then 0.0 else Elapsed(r, es, k - 1) + Added(r[k - 1], es[k - 1])
  }

  /** The thresholds that the events among the first `k` happenings reached. */
  function Spent(r: seq<State>, es: seq<Happening>, k: nat): real
    requires k <= |es| < |r|
  {
    if k == 0 then 0.0
    else Spent(r, es, k - 1) + if Wf(r[k - 1]) && FiresOn(r[k - 1], es[k - 1]) then r[k - 1].threshold else 0.0
  }

  lemma {:induction false} EventKeepsPhase(s: State, negLog: NegLog)
    requires Wf(s)
    ensures Event(s, negLog).phase == s.phase
  {
  }

  lemma {:induction false} ClockStep(s: State, negLog: NegLog, e: Happening)
    requires Wf(s)
    ensures FiresOn(s, e) <==> e.Tick? && e.hz > 0.0 && s.phase + Added(s, e) >= s.threshold
    ensures Step(s, negLog, e).phase == s.phase + Added(s, e) - if FiresOn(s, e) then s.threshold else 0.0
  {
    if FiresOn(s, e) {
      EventKeepsPhase(Due(s, e.hz), negLog);
    }
  }

  /** No time is lost: the thresholds reached and the phase left over are the starting phase and all that was added. */
  lemma {:induction false} ClockAccount(r: seq<State>, negLog: NegLog, es: seq<Happening>, k: nat)
    requires IsRun(r, negLog, es) && k <= |es|
    ensures Spent(r, es, k) + r[k].phase == r[0].phase + Elapsed(r, es, k)
  {
    if k > 0 {
      ClockAccount(r, negLog, es, k - 1);
      assert StepAt(r, negLog, es, k - 1);
      ClockStep(r[k - 1], negLog, es[k - 1]);
    }
  }

  // ---------------------------------------------------------------------------
  // The thresholds
  // ---------------------------------------------------------------------------

  /** The first number that an event draws, held away from zero. */
  function Waiting(s: State): (u: real)
    ensures 0.000001 <= u < 1.0
  {
    var u := Draw(NextSeed(s.seed));
    if u < 0.000001 then 0.000001 else u
  }

  /** As far from one to `wait` as the jitter says. */
  function Jittered(jitter: real, wait: real): real { 1.0 + jitter * (wait - 1.0) }

  lemma {:induction false} JitteredEnds(jitter: real, wait: real)
    ensures jitter == 0.0 ==> Jittered(jitter, wait) == 1.0
    ensures jitter == 1.0 ==> Jittered(jitter, wait) == wait
    ensures Jittered(jitter, wait) - 1.0 == jitter * (wait - 1.0)
  {
  }

  lemma {:induction false} EventThreshold(s: State, negLog: NegLog)
    requires Wf(s)
    ensures Event(s, negLog).threshold == Jittered(s.jitter, negLog(Waiting(s)))
  {
  }

  lemma {:induction false} StepThreshold(s: State, negLog: NegLog, e: Happening)
    requires Wf(s)
    ensures Step(s, negLog, e).threshold
         == if FiresOn(s, e) then Jittered(s.jitter, negLog(Waiting(s))) else s.threshold
  {
    if FiresOn(s, e) {
      EventThreshold(Due(s, e.hz), negLog);
    }
  }

  /**
   The threshold after an event lies between one period and the logarithm of a number drawn, as far from the one to
   the other as the jitter says; it changes at no other time.
   */
  lemma {:induction false} ThresholdStep(s: State, negLog: NegLog, e: Happening)
    requires Wf(s)
    ensures var t, wait := Step(s, negLog, e).threshold, negLog(Waiting(s));
            && (!FiresOn(s, e) ==> t == s.threshold)
            && (FiresOn(s, e) ==> t - 1.0 == s.jitter * (wait - 1.0))
            && (FiresOn(s, e) && s.jitter == 0.0 ==> t == 1.0)
            && (FiresOn(s, e) && s.jitter == 1.0 ==> t == wait)
  {
    StepThreshold(s, negLog, e);
    JitteredEnds(s.jitter, negLog(Waiting(s)));
  }

  // ---------------------------------------------------------------------------
  // Without jitter
  // ---------------------------------------------------------------------------

  ghost predicate Regular(r: seq<State>, k: nat)
    requires k <= |r|
  {
    forall m :: 0 <= m < k ==> r[m].jitter == 0.0
  }

  lemma {:induction false} UnitThresholds(r: seq<State>, negLog: NegLog, es: seq<Happening>, k: nat)
    requires IsRun(r, negLog, es) && k <= |es| && r[0].threshold == 1.0 && Regular(r, k)
    ensures r[k].threshold == 1.0 && Spent(r, es, k) == Events(r, es, 0, k) as real
  {
    if k > 0 {
      UnitThresholds(r, negLog, es, k - 1);
      assert StepAt(r, negLog, es, k - 1);
      ThresholdStep(r[k - 1], negLog, es[k - 1]);
    }
  }

  lemma {:induction false} PhaseStays(r: seq<State>, negLog: NegLog, es: seq<Happening>, k: nat)
    requires IsRun(r, negLog, es) && k <= |es| && r[0].threshold == 1.0 && Regular(r, k) && r[0].phase >= 0.0
    ensures r[k].phase >= 0.0
  {
    if k > 0 {
      PhaseStays(r, negLog, es, k - 1);
      UnitThresholds(r, negLog, es, k - 1);
      assert StepAt(r, negLog, es, k - 1);
      ClockStep(r[k - 1], negLog, es[k - 1]);
      AddedNonneg(r[k - 1], es[k - 1]);
    }
  }

  lemma {:induction false} Quotient(a: real, b: real)
    requires a > 0.0 && b > 0.0
    ensures a / b >= 0.0 && (a <= b ==> a / b <= 1.0)
  {
    var q := a / b;
    assert q * b == a;
    assert q < 0.0 ==> q * b < 0.0;
    assert (q - 1.0) * b == q * b - b;
    assert q > 1.0 ==> (q - 1.0) * b > 0.0;
  }

  lemma {:induction false} AddedNonneg(s: State, e: Happening)
    requires Wf(s)
    ensures Added(s, e) >= 0.0
  {
    if e.Tick? && e.hz > 0.0 {
      Quotient(s.rate, e.hz);
    }
  }

  /**
   At jitter 0 the events are the whole part of the elapsed clock exactly when less than one period is left over.
   */
  lemma {:induction false} EventsAreFloor(r: seq<State>, negLog: NegLog, es: seq<Happening>, k: nat)
    requires IsRun(r, negLog, es) && k <= |es| && r[0].threshold == 1.0 && Regular(r, k) && r[0].phase >= 0.0
    ensures Events(r, es, 0, k) == (r[0].phase + Elapsed(r, es, k)).Floor <==> r[k].phase < 1.0
  {
    ClockAccount(r, negLog, es, k);
    UnitThresholds(r, negLog, es, k);
    PhaseStays(r, negLog, es, k);
  }

  ghost predicate NoFaster(s: State, e: Happening) { e.Tick? && e.hz > 0.0 ==> s.rate <= e.hz }

  lemma {:induction false} SlowAdded(s: State, e: Happening)
    requires Wf(s) && NoFaster(s, e)
    ensures Added(s, e) <= 1.0
  {
    if e.Tick? && e.hz > 0.0 {
      Quotient(s.rate, e.hz);
    }
  }

  /** So whenever the rate never exceeds the tick rate an event comes with every full period. */
  lemma {:induction false} RegularClock(r: seq<State>, negLog: NegLog, es: seq<Happening>, k: nat)
    requires IsRun(r, negLog, es) && k <= |es| && r[0].threshold == 1.0 && Regular(r, k) && 0.0 <= r[0].phase < 1.0
    requires forall m :: 0 <= m < k ==> NoFaster(r[m], es[m])
    ensures 0.0 <= r[k].phase < 1.0
    ensures Events(r, es, 0, k) == (r[0].phase + Elapsed(r, es, k)).Floor
  {
    if k > 0 {
      RegularClock(r, negLog, es, k - 1);
      UnitThresholds(r, negLog, es, k - 1);
      assert NoFaster(r[k - 1], es[k - 1]);
      assert StepAt(r, negLog, es, k - 1);
      ClockStep(r[k - 1], negLog, es[k - 1]);
      SlowAdded(r[k - 1], es[k - 1]);
    }
    PhaseStays(r, negLog, es, k);
    EventsAreFloor(r, negLog, es, k);
  }
}
