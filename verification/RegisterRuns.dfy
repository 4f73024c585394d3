/**
 Whole runs of the shift register: how its clock accounts for time, what the register holds, and how its
 feedback modes repeat.
 */
module RegisterRuns {
  import opened RegisterWord
  import opened ShiftRegister

  datatype Event = Tick(hz: real) | Update(key: Key, value: real)

  function Step(s: State, e: Event): (t: State)
    requires Wf(s)
    ensures Wf(t) && SameShape(s, t)
  {
    match e
    case Tick(hz) => AfterTick(s, hz)
    case Update(key, value) => AfterUpdate(s, key, value)
  }

  ghost predicate Follows(s: State, e: Event, t: State) { Wf(s) && Wf(t) && SameShape(s, t) && t == Step(s, e) }

  ghost predicate StepAt(r: seq<State>, es: seq<Event>, k: nat)
    requires k < |es| < |r|
  {
    Follows(r[k], es[k], r[k + 1])
  }

  /** The states `r` that the events `es` lead through, from any well-formed state. */
  ghost predicate IsRun(r: seq<State>, es: seq<Event>) {
    && |r| == |es| + 1 && Wf(r[0])
    && forall k :: 0 <= k < |es| ==> StepAt(r, es, k)
  }

  lemma {:induction false} RunShape(r: seq<State>, es: seq<Event>, k: nat)
    requires IsRun(r, es) && k <= |es|
    ensures Wf(r[k]) && SameShape(r[0], r[k])
  {
    if k > 0 {
      RunShape(r, es, k - 1);
      assert StepAt(r, es, k - 1);
    }
  }

  /** Whether the clock fires on this event. */
  predicate FiresOn(s: State, e: Event)
    requires Wf(s)
  {
    e.Tick? && Fires(s, e.hz)
  }

  predicate EdgeAt(r: seq<State>, es: seq<Event>, k: nat)
    requires k < |r| && k < |es|
  {
    Wf(r[k]) && FiresOn(r[k], es[k])
  }

  /** The clock edges among the first `k` events. */
  function Edges(r: seq<State>, es: seq<Event>, k: nat): nat
    requires k <= |es| < |r|
  {
    if k == 0 then 0 else Edges(r, es, k - 1) + if EdgeAt(r, es, k - 1) then 1 else 0
  }

  // ---------------------------------------------------------------------------
  // Phase accounting
  // ---------------------------------------------------------------------------

  /** What an event adds to the clock. */
  function Added(s: State, e: Event): real
    requires Wf(s)
  {
    if e.Tick? && e.hz > 0.0 then s.clockRate / e.hz else 0.0
  }

  function Total(r: seq<State>, es: seq<Event>, k: nat): real
    requires k <= |es| < |r|
  {
    if k == 0 then 0.0 else Total(r, es, k - 1) + if Wf(r[k - 1]) then Added(r[k - 1], es[k - 1]) else 0.0
  }

  lemma {:induction false} PhaseStep(s: State, e: Event, t: State)
    requires Follows(s, e, t)
    ensures t.phase == s.phase + Added(s, e) - if FiresOn(s, e) then 1.0 else 0.0
    ensures s.phase < 1.0 && Added(s, e) <= 1.0 ==> t.phase < 1.0
  {
  }

  /** No time is lost: the edges so far and the phase left over are the starting phase and all increments. */
  lemma {:induction false} PhaseAccount(r: seq<State>, es: seq<Event>, k: nat)
    requires IsRun(r, es) && k <= |es|
    ensures Edges(r, es, k) as real + r[k].phase == r[0].phase + Total(r, es, k)
  {
    if k > 0 {
      PhaseAccount(r, es, k - 1);
      assert StepAt(r, es, k - 1);
      PhaseStep(r[k - 1], es[k - 1], r[k]);
    }
  }

  /** The edges are the whole part of the elapsed clock exactly when less than one period is left over. */
  lemma {:induction false} EdgesAreFloor(r: seq<State>, es: seq<Event>, k: nat)
    requires IsRun(r, es) && k <= |es|
    ensures Edges(r, es, k) == (r[0].phase + Total(r, es, k)).Floor <==> r[k].phase < 1.0
  {
    PhaseAccount(r, es, k);
    RunShape(r, es, k);
  }

  ghost predicate NoFaster(s: State, e: Event) { e.Tick? && e.hz > 0.0 ==> s.clockRate <= e.hz }

  /** A clock that is never faster than the ticks loses nothing. */
  lemma {:induction false} SlowClockKeepsUp(r: seq<State>, es: seq<Event>, k: nat)
    requires IsRun(r, es) && k <= |es| && r[0].phase < 1.0
    requires forall j :: 0 <= j < k ==> NoFaster(r[j], es[j])
    ensures r[k].phase < 1.0
    ensures Edges(r, es, k) == (r[0].phase + Total(r, es, k)).Floor
  {
    if k > 0 {
      SlowClockKeepsUp(r, es, k - 1);
      assert NoFaster(r[k - 1], es[k - 1]);
      assert StepAt(r, es, k - 1);
      SlowIncrement(r[k - 1], es[k - 1]);
      PhaseStep(r[k - 1], es[k - 1], r[k]);
    }
    EdgesAreFloor(r, es, k);
  }

  lemma {:induction false} SlowIncrement(s: State, e: Event)
    requires Wf(s) && NoFaster(s, e)
    ensures Added(s, e) <= 1.0
  {
    if e.Tick? && e.hz > 0.0 {
      DivideBySmaller(s.clockRate, e.hz);
    }
  }

  lemma {:induction false} DivideBySmaller(a: real, b: real)
    requires 0.0 < a <= b
    ensures a / b <= 1.0
  {
    var q := a / b;
    assert q * b == a;
    assert (q - 1.0) * b == q * b - b;
    assert q > 1.0 ==> (q - 1.0) * b > 0.0;
  }

  /** k times x, by adding. */
  function Times(k: nat, x: real): real { if k == 0 then 0.0 else Times(k - 1, x) + x }

  ghost predicate Steady(es: seq<Event>, hz: real, k: nat)
    requires k <= |es|
  {
    forall j :: 0 <= j < k ==> es[j] == Tick(hz)
  }

  /** One tick at a positive rate, seen from the clock. */
  ghost predicate Ticks(before: real, inc: real, after: real, fired: bool) {
    fired == (before + inc >= 1.0) && after == before + inc - if fired then 1.0 else 0.0
  }

  lemma {:induction false} SteadyStep(s: State, hz: real, t: State)
    requires Follows(s, Tick(hz), t) && hz > 0.0
    ensures Ticks(s.phase, Increment(s.clockRate, hz), t.phase, FiresOn(s, Tick(hz))) && t.clockRate == s.clockRate
  {
  }

  /** A clock with a constant increment: its phases and its edge count after each tick. */
  lemma {:induction false} SteadyTrace(phases: seq<real>, edges: seq<int>, inc: real, k: nat)
    requires k < |phases| == |edges| && 0.0 <= phases[0] < 1.0 && inc >= 0.0 && edges[0] == 0
    requires forall i :: 0 <= i < k ==>
                 && edges[i] <= edges[i + 1] <= edges[i] + 1
                 && Ticks(phases[i], inc, phases[i + 1], edges[i] < edges[i + 1])
    ensures edges[k] as real + phases[k] == phases[0] + Times(k, inc) && phases[k] >= 0.0
    ensures if inc < 1.0 then phases[k] < 1.0 else edges[k] == k
  {
    if k > 0 {
      SteadyTrace(phases, edges, inc, k - 1);
    }
  }

  lemma {:induction false} SteadyRate(r: seq<State>, es: seq<Event>, hz: real, k: nat)
    requires IsRun(r, es) && k <= |es| && Steady(es, hz, k)
    ensures r[k].clockRate == r[0].clockRate
  {
    if k > 0 {
      SteadyRate(r, es, hz, k - 1);
      assert StepAt(r, es, k - 1);
    }
  }

  /** Under constant rates the clock runs at its own rate or at one edge per tick, whichever is lower. */
  lemma {:induction false} ConstantRate(r: seq<State>, es: seq<Event>, hz: real, k: nat)
    requires IsRun(r, es) && k <= |es| && Steady(es, hz, k) && hz > 0.0 && r[0].phase < 1.0
    ensures var inc := r[0].clockRate / hz;
            Edges(r, es, k) == (r[0].phase + Times(k, if inc < 1.0 then inc else 1.0)).Floor
  {
    var inc := Increment(r[0].clockRate, hz);
    var phases := seq(k + 1, i requires 0 <= i <= k => r[i].phase);
    var edges := seq(k + 1, i requires 0 <= i <= k => Edges(r, es, i));
    forall i | 0 <= i < k
      ensures edges[i] <= edges[i + 1] <= edges[i] + 1
      ensures Ticks(phases[i], inc, phases[i + 1], edges[i] < edges[i + 1])
    {
      SteadyRate(r, es, hz, i);
      assert StepAt(r, es, i);
      SteadyStep(r[i], hz, r[i + 1]);
    }
    SteadyTrace(phases, edges, inc, k);
    TimesOne(k);
  }

  lemma {:induction false} TimesOne(k: nat)
    ensures Times(k, 1.0) == k as real
  {
    if k > 0 {
      TimesOne(k - 1);
    }
  }

  // ---------------------------------------------------------------------------
  // What the register holds
  // ---------------------------------------------------------------------------

  /** The bits entered so far, the last one first. */
  function Entered(r: seq<State>, es: seq<Event>, k: nat): (b: seq<bool>)
    requires k <= |es| < |r|
    ensures |b| == Edges(r, es, k)
  {
    if k == 0 then []
    else (if EdgeAt(r, es, k - 1) then [NewBit(r[k - 1])] else []) + Entered(r, es, k - 1)
  }

  function Contents(s: State): (b: seq<bool>)
    requires Wf(s)
    ensures |b| == s.length
  {
    s.reg[..s.length]
  }

  /** An edge pushes one bit in; nothing else moves the register. */
  lemma {:induction false} EdgeShifts(s: State, e: Event, t: State)
    requires Follows(s, e, t)
    ensures FiresOn(s, e) ==> Contents(t) == [NewBit(s)] + Contents(s)[..s.length - 1]
    ensures !FiresOn(s, e) ==> Contents(t) == Contents(s)
  {
    if FiresOn(s, e) {
      assert t.reg == ShiftIn(s.reg, NewBit(s), s.length);
      assert s.reg[..s.length - 1] == Contents(s)[..s.length - 1];
    }
  }

  lemma {:induction false} ShiftTogether(b: bool, e: seq<bool>, c: seq<bool>)
    requires |c| >= 1
    ensures [b] + (e + c)[..|c|][..|c| - 1] == ([b] + e + c)[..|c|]
  {
  }

  /** In every mode the register is the most recent bits entered, in order, on top of those it started with. */
  lemma {:induction false} RegisterHistory(r: seq<State>, es: seq<Event>, k: nat)
    requires IsRun(r, es) && k <= |es|
    ensures Wf(r[k]) && Contents(r[k]) == (Entered(r, es, k) + Contents(r[0]))[..r[0].length]
  {
    RunShape(r, es, k);
    if k == 0 {
      assert [] + Contents(r[0]) == Contents(r[0]);
    } else {
      RegisterHistory(r, es, k - 1);
      RunShape(r, es, k - 1);
      assert StepAt(r, es, k - 1);
      EdgeShifts(r[k - 1], es[k - 1], r[k]);
      if EdgeAt(r, es, k - 1) {
        ShiftTogether(NewBit(r[k - 1]), Entered(r, es, k - 1), Contents(r[0]));
      } else {
        assert [] + Entered(r, es, k - 1) == Entered(r, es, k - 1);
      }
    }
  }

  /** After as many edges as the register is long it holds exactly the last bits entered. */
  lemma {:induction false} RegisterIsLastBits(r: seq<State>, es: seq<Event>, k: nat)
    requires IsRun(r, es) && k <= |es| && Edges(r, es, k) >= r[0].length
    ensures Wf(r[k]) && Contents(r[k]) == Entered(r, es, k)[..r[0].length]
  {
    RegisterHistory(r, es, k);
  }
}
