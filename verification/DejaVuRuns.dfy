/** Whole runs of the stochastic modulator: its indices, and how the deja-vu loop replays and freezes. */
module DejaVuRuns {
  import opened Lcg
  import opened Stochastic

  datatype Happening = Tick(hz: real) | Update(key: Key, value: real)

  // ---------------------------------------------------------------------------
  // What one step keeps
  // ---------------------------------------------------------------------------

  /** Both positions stay inside the buffers whatever the length was set to. */
  lemma {:induction false} EventKeeps(s: State, negLog: NegLog)
    requires Wf(s)
    ensures Wf(Event(s, negLog))
  {
  }

  lemma {:induction false} TickKeeps(s: State, negLog: NegLog, hz: real)
    requires Wf(s)
    ensures Wf(AfterTick(s, negLog, hz))
  {
    if Fires(s, hz) {
      EventKeeps(Due(s, hz), negLog);
    }
  }

  lemma {:induction false} UpdateKeeps(s: State, key: Key, value: real)
    requires Wf(s)
    ensures Wf(AfterUpdate(s, key, value))
  {
  }

  function Step(s: State, negLog: NegLog, e: Happening): (t: State)
    requires Wf(s)
    ensures Wf(t)
  {
    match e
    case Tick(hz) => TickKeeps(s, negLog, hz); AfterTick(s, negLog, hz)
    case Update(key, value) => UpdateKeeps(s, key, value); AfterUpdate(s, key, value)
  }

  ghost predicate StepAt(r: seq<State>, negLog: NegLog, es: seq<Happening>, k: nat)
    requires k < |es| < |r|
  {
    Wf(r[k]) && r[k + 1] == Step(r[k], negLog, es[k])
  }

  /** The states `r` that the happenings `es` lead through, from any well-formed state. */
  ghost predicate IsRun(r: seq<State>, negLog: NegLog, es: seq<Happening>) {
    && |r| == |es| + 1 && Wf(r[0])
    && forall k :: 0 <= k < |es| ==> StepAt(r, negLog, es, k)
  }

  // ---------------------------------------------------------------------------
  // Levels
  // ---------------------------------------------------------------------------

  predicate LevelsWithin(s: State) {
    -1.0 <= s.cvOut <= 1.0 && forall i :: 0 <= i < |s.cvBuf| ==> -1.0 <= s.cvBuf[i] <= 1.0
  }

  lemma {:induction false} WrittenWithin(s: State)
    requires Wf(s) && LevelsWithin(s)
    ensures LevelsWithin(Written(s))
  {
    LevelWithin(Draw(NextSeed(NextSeed(s.seed))), s.bias, s.spread, s.steps);
  }

  lemma {:induction false} TickWithin(s: State, negLog: NegLog, hz: real)
    requires Wf(s) && LevelsWithin(s)
    ensures LevelsWithin(AfterTick(s, negLog, hz))
  {
    if Fires(s, hz) {
      assert LevelsWithin(Due(s, hz));
      EventWithin(Due(s, hz), negLog);
    }
  }

  lemma {:induction false} StepWithin(s: State, negLog: NegLog, e: Happening)
    requires Wf(s) && LevelsWithin(s)
    ensures LevelsWithin(Step(s, negLog, e))
  {
    if e.Tick? {
      TickWithin(s, negLog, e.hz);
    }
  }

  lemma {:induction false} EventWithin(s: State, negLog: NegLog)
    requires Wf(s) && LevelsWithin(s)
    ensures LevelsWithin(Event(s, negLog))
  {
    var b := AfterReplay(Rearmed(s, negLog));
    WrittenWithin(AfterFreeze(b));
  }

  /** In every run all levels, held and put out, stay within [-1, 1]. */
  lemma {:induction false} RunWithin(r: seq<State>, negLog: NegLog, es: seq<Happening>, k: nat)
    requires IsRun(r, negLog, es) && k <= |es| && LevelsWithin(r[0])
    ensures LevelsWithin(r[k])
  {
    if k > 0 {
      RunWithin(r, negLog, es, k - 1);
      assert StepAt(r, negLog, es, k - 1);
      StepWithin(r[k - 1], negLog, es[k - 1]);
    }
  }

  // ---------------------------------------------------------------------------
  // Replay
  // ---------------------------------------------------------------------------

  predicate FiresOn(s: State, e: Happening)
    requires Wf(s)
  {
    e.Tick? && Fires(s, e.hz)
  }

  /** From deja_vu 0.5 up every event replays, because no draw reaches 1. */
  lemma {:induction false} LockedEvent(s: State, negLog: NegLog)
    requires Wf(s) && s.dejaVu >= 0.5
    ensures var t := Event(s, negLog);
            && t.cvBuf == s.cvBuf && t.gateBuf == s.gateBuf && t.writePos == s.writePos
            && t.cvOut == s.cvBuf[s.readPos] && t.gateOut == s.gateBuf[s.readPos]
            && (s.dejaVu == 0.5 ==> t.readPos == (s.readPos + 1) % s.length)
            && (s.dejaVu == 1.0 ==> t.readPos == s.readPos)
  {
    var a := Rearmed(s, negLog);
    assert Replays(a);
    var b := AfterReplay(a);
    assert s.dejaVu == 0.5 ==> !Freezes(b);
    assert s.dejaVu == 1.0 ==> Freezes(b);
  }

  lemma {:induction false} LockedStep(s: State, negLog: NegLog, e: Happening)
    requires Wf(s) && s.dejaVu >= 0.5
    ensures var t := Step(s, negLog, e);
            && t.cvBuf == s.cvBuf && t.gateBuf == s.gateBuf
            && (FiresOn(s, e) ==> t.cvOut == s.cvBuf[s.readPos] && t.gateOut == s.gateBuf[s.readPos])
            && (FiresOn(s, e) && s.dejaVu == 0.5 ==> t.readPos == (s.readPos + 1) % s.length)
            && (!FiresOn(s, e) || s.dejaVu == 1.0 ==> t.readPos == s.readPos)
  {
    if FiresOn(s, e) {
      LockedEvent(Due(s, e.hz), negLog);
    }
  }

  ghost predicate Locked(r: seq<State>, i: nat, k: nat)
    requires k <= |r|
  {
    forall m :: i <= m < k ==> r[m].dejaVu >= 0.5
  }

  /** While deja_vu is at least 0.5 both buffers stay as they are. */
  lemma {:induction false} BuffersLocked(r: seq<State>, negLog: NegLog, es: seq<Happening>, i: nat, k: nat)
    requires IsRun(r, negLog, es) && i <= k <= |es| && Locked(r, i, k)
    ensures r[k].cvBuf == r[i].cvBuf && r[k].gateBuf == r[i].gateBuf
  {
    if i < k {
      BuffersLocked(r, negLog, es, i, k - 1);
      assert StepAt(r, negLog, es, k - 1);
      LockedStep(r[k - 1], negLog, es[k - 1]);
    }
  }

  // ---------------------------------------------------------------------------
  // Period
  // ---------------------------------------------------------------------------

  /** The events among happenings i to k. */
  function Events(r: seq<State>, es: seq<Happening>, i: nat, k: nat): nat
    requires i <= k <= |es| < |r|
  {
    if i == k then 0 else Events(r, es, i, k - 1) + if Wf(r[k - 1]) && FiresOn(r[k - 1], es[k - 1]) then 1 else 0
  }

  /** The read position `n` events on. */
  function Around(pos: nat, n: nat, length: nat): nat
    requires length > 0
  {
    if n == 0 then pos else (Around(pos, n - 1, length) + 1) % length
  }

  lemma {:induction false} NextPosition(pos: nat, length: nat)
    requires pos < length
    ensures (pos + 1) % length == if pos + 1 < length then pos + 1 else 0
  {
  }

  lemma {:induction false} AroundPart(pos: nat, n: nat, length: nat)
    requires pos < length && n <= length
    ensures Around(pos, n, length) == if pos + n < length then pos + n else pos + n - length
  {
    if n > 0 {
      AroundPart(pos, n - 1, length);
      NextPosition(Around(pos, n - 1, length), length);
    }
  }

  /** The loop is locked at exactly 0.5 with one length. */
  ghost predicate Looping(r: seq<State>, i: nat, k: nat, length: nat)
    requires k <= |r|
  {
    forall m :: i <= m < k ==> r[m].dejaVu == 0.5 && r[m].length == length
  }

  lemma {:induction false} PositionAdvances(
    r: seq<State>, negLog: NegLog, es: seq<Happening>, i: nat, k: nat, length: nat)
    requires IsRun(r, negLog, es) && i <= k <= |es| && length > 0 && Looping(r, i, k, length)
    ensures r[k].readPos == Around(r[i].readPos, Events(r, es, i, k), length)
    ensures Events(r, es, i, k) > 0 ==> r[k].readPos < length
  {
    if i < k {
      PositionAdvances(r, negLog, es, i, k - 1, length);
      assert StepAt(r, negLog, es, k - 1);
      LockedStep(r[k - 1], negLog, es[k - 1]);
    }
  }

  ghost predicate EventAt(r: seq<State>, es: seq<Happening>, k: nat)
    requires k < |es| < |r|
  {
    Wf(r[k]) && FiresOn(r[k], es[k])
  }

  /**
   In a locked loop the events from the second on repeat with the loop's length: an event that is not the
   first, and the one `length` events later, put out the same level and gate.
   */
  lemma {:induction false} LoopRepeats(
    r: seq<State>, negLog: NegLog, es: seq<Happening>, start: nat, i: nat, k: nat, length: nat)
    requires IsRun(r, negLog, es) && start <= i <= k < |es| && length > 0 && Looping(r, start, k + 1, length)
    requires Events(r, es, start, i) > 0 && Events(r, es, i, k) == length && EventAt(r, es, i) && EventAt(r, es, k)
    ensures r[k + 1].cvOut == r[i + 1].cvOut && r[k + 1].gateOut == r[i + 1].gateOut
  {
    PositionAdvances(r, negLog, es, start, i, length);
    PositionAdvances(r, negLog, es, i, k, length);
    AroundPart(r[i].readPos, length, length);
    BuffersLocked(r, negLog, es, i, k);
    PutsOut(r, negLog, es, i);
    PutsOut(r, negLog, es, k);
  }

  /** A locked event puts out the entry at the read position. */
  lemma {:induction false} PutsOut(r: seq<State>, negLog: NegLog, es: seq<Happening>, k: nat)
    requires IsRun(r, negLog, es) && k < |es| && EventAt(r, es, k) && r[k].dejaVu >= 0.5
    ensures r[k + 1].cvOut == r[k].cvBuf[r[k].readPos] && r[k + 1].gateOut == r[k].gateBuf[r[k].readPos]
  {
    assert StepAt(r, negLog, es, k);
    LockedStep(r[k], negLog, es[k]);
  }

  ghost predicate Frozen(r: seq<State>, i: nat, k: nat)
    requires k <= |r|
  {
    forall m :: i <= m < k ==> r[m].dejaVu == 1.0
  }

  lemma {:induction false} PositionFrozen(r: seq<State>, negLog: NegLog, es: seq<Happening>, i: nat, k: nat)
    requires IsRun(r, negLog, es) && i <= k <= |es| && Frozen(r, i, k)
    ensures r[k].readPos == r[i].readPos
  {
    if i < k {
      PositionFrozen(r, negLog, es, i, k - 1);
      assert StepAt(r, negLog, es, k - 1);
      LockedStep(r[k - 1], negLog, es[k - 1]);
    }
  }

  /** At 1.0 all events put out the same level and gate, whatever the length does. */
  lemma {:induction false} FrozenConstant(r: seq<State>, negLog: NegLog, es: seq<Happening>, i: nat, k: nat)
    requires IsRun(r, negLog, es) && i <= k < |es| && Frozen(r, i, k + 1) && EventAt(r, es, i) && EventAt(r, es, k)
    ensures r[k + 1].cvOut == r[i + 1].cvOut && r[k + 1].gateOut == r[i + 1].gateOut
  {
    PositionFrozen(r, negLog, es, i, k);
    BuffersLocked(r, negLog, es, i, k);
    PutsOut(r, negLog, es, i);
    PutsOut(r, negLog, es, k);
  }

  // ---------------------------------------------------------------------------
  // Deja vu 0
  // ---------------------------------------------------------------------------

  /** The level that an event at deja_vu 0 draws. */
  function DrawnLevel(s: State, negLog: NegLog): real {
    var first := NextSeed(Rearmed(s, negLog).seed);
    Level(Draw(NextSeed(first)), s.bias, s.spread, s.steps)
  }

  /** At 0 an event always writes what it draws, and puts out the entry at the read position. */
  lemma {:induction false} FreshEvent(s: State, negLog: NegLog)
    requires Wf(s) && s.dejaVu == 0.0
    ensures var t := Event(s, negLog);
            && t.cvBuf == s.cvBuf[s.writePos := DrawnLevel(s, negLog)]
            && t.cvOut == t.cvBuf[s.readPos] && t.gateOut == t.gateBuf[s.readPos]
            && t.readPos == (s.readPos + 1) % s.length && t.writePos == (s.writePos + 1) % s.length
            && t.dejaVu == 0.0
  {
  }

  /** What an event puts out if the buffer of levels holds `levels`. */
  function LevelOut(s: State, negLog: NegLog, levels: seq<real>): real
    requires Wf(s) && |levels| == MAX_LENGTH
  {
    Event(s.(cvBuf := levels), negLog).cvOut
  }

  /**
   At 0 the event plays the level it has just drawn, rather than one that was in the buffer before, if and only if
   the two positions coincide.
   */
  lemma {:induction false} PlaysFreshExactly(s: State, negLog: NegLog)
    requires Wf(s) && s.dejaVu == 0.0
    ensures (forall levels: seq<real> :: |levels| == MAX_LENGTH ==>
              LevelOut(s, negLog, levels) == DrawnLevel(s, negLog))
       <==> s.readPos == s.writePos
  {
    forall levels: seq<real> | |levels| == MAX_LENGTH
      ensures LevelOut(s, negLog, levels)
           == if s.readPos == s.writePos then DrawnLevel(s, negLog) else levels[s.readPos]
    {
      FreshEvent(s.(cvBuf := levels), negLog);
    }
    var other := seq(MAX_LENGTH, i => DrawnLevel(s, negLog) + 1.0);
    assert s.readPos != s.writePos ==> LevelOut(s, negLog, other) == other[s.readPos];
  }

  /** In a run that never leaves 0 the positions stay together, whatever the length does. */
  lemma {:induction false} PositionsTogether(r: seq<State>, negLog: NegLog, es: seq<Happening>, k: nat)
    requires IsRun(r, negLog, es) && k <= |es| && r[0].readPos == r[0].writePos
    requires forall m :: 0 <= m < k ==> r[m].dejaVu == 0.0
    ensures r[k].readPos == r[k].writePos
  {
    if k > 0 {
      PositionsTogether(r, negLog, es, k - 1);
      assert StepAt(r, negLog, es, k - 1);
      TogetherStep(r[k - 1], negLog, es[k - 1]);
    }
  }

  lemma {:induction false} TogetherStep(s: State, negLog: NegLog, e: Happening)
    requires Wf(s) && s.dejaVu == 0.0 && s.readPos == s.writePos
    ensures Step(s, negLog, e).readPos == Step(s, negLog, e).writePos
  {
    if FiresOn(s, e) {
      FreshEvent(Due(s, e.hz), negLog);
    }
  }

  /** One event at 0.5 moves them apart, and the next event at 0 replays an old level. */
  lemma {:induction false} ReplaysAtZero(s: State, negLog: NegLog)
    requires Wf(s) && s.dejaVu == 0.5 && s.readPos == s.writePos && s.readPos + 1 < s.length
    ensures var t := Event(s, negLog);
            && Wf(AfterUpdate(t, DejaVu, 0.0))
            && Event(AfterUpdate(t, DejaVu, 0.0), negLog).cvOut == s.cvBuf[s.readPos + 1]
  {
    var t := Event(s, negLog);
    LockedEvent(s, negLog);
    EventKeeps(s, negLog);
    EventKeepsLength(s, negLog);
    NextPosition(s.readPos, s.length);
    FreshEvent(AfterUpdate(t, DejaVu, 0.0), negLog);
  }

  lemma {:induction false} EventKeepsLength(s: State, negLog: NegLog)
    requires Wf(s)
    ensures Event(s, negLog).length == s.length
  {
  }
}
