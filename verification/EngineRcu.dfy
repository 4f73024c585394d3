/**
 The engine's table under RCU (include/nomos/rt/rcu.hpp) carries the turns of its ticks: the steps of the
 copy-on-write protocol that matter to callers are the steps of `EngineTurns`, one by one, and all others change
 nothing that a caller can see.  So ticks on whatever table they happened to load are atomic.
 */
module EngineRcu {
  import opened Basics
  import opened ModulatorEngine
  import opened EngineRuns
  import R = Rcu
  import E = EngineTurns

  /** What a step brings with it that the protocol does not look at. */
  datatype Data<M, D, V> = Data(content: M, key: string, value: V, beat: D, rate: V)

  /** The protocol, and the engine whose table it protects. */
  datatype Joint<M, D, V, O> = Joint(sys: R.Sys, world: E.World<M, D, V, O>)

  /** The engine's step, if it takes one, when the protocol takes step `a`; `r` is the event thread. */
  function Matching<M, D, V>(s: R.Sys, a: R.Step, r: R.Reader, d: Data<M, D, V>): Option<E.Step<M, D, V>>
    requires R.Enabled(s, a)
  {
    match a
    case ReaderLoad(x) => if x == r then Some(E.Load(d.beat, d.rate)) else None
    case ReaderUse(x, _) => if x == r then Some(E.Turn) else None
    case ReaderExit(x) => if x == r then Some(E.Leave) else None
    case Swap =>
      (match s.writer.op
       case Start(id, mod) => Some(E.Install(id, mod, d.content))
       case Stop(id) => Some(E.Remove(id))
       case UpdateParam(_) => None)
    case Update => if s.writer.op.UpdateParam? then Some(E.Set(s.writer.op.id, d.key, d.value)) else None
    case _ => None
  }

  /** The event thread loads in a read-side section, uses the modulators in tick order, and leaves when done. */
  predicate Program<M, D, V, O>(j: Joint<M, D, V, O>, a: R.Step, r: R.Reader) {
    var ticking := j.world.ticking;
    match a
    case ReaderUse(x, id) =>
      x == r ==> ticking.Some? && ticking.value.turns < |ticking.value.snapshot.order|
                 && id == ticking.value.snapshot.order[ticking.value.turns]
    case ReaderExit(x) =>
      x == r ==> ticking.Some? && ticking.value.turns == |ticking.value.snapshot.order|
    case _ => true
  }

  function Do<M, D, V, O>(
    b: Behaviour<M, D, V, O>, j: Joint<M, D, V, O>, a: R.Step, r: R.Reader, d: Data<M, D, V>): Joint<M, D, V, O>
    requires R.Enabled(j.sys, a)
  {
    var step := Matching(j.sys, a, r, d);
    Joint(R.Do(j.sys, a),
          if step.Some? && E.Enabled(j.world, step.value) then E.Do(b, j.world, step.value) else j.world)
  }

  // ---------------------------------------------------------------------------
  // A started modulator is new to everyone
  // ---------------------------------------------------------------------------

  /** Until its table is installed, nothing but start, and then its own table, holds a modulator being started. */
  ghost predicate NewOk(s: R.Sys) {
    && (R.CallerMod(s.writer).Some? ==>
          var m := R.CallerMod(s.writer).value; m in s.owners && s.owners[m] == {R.WithCaller})
    && (s.writer.Edited? && s.writer.op.Start? ==>
          var m := s.writer.op.mod; m in s.owners && s.owners[m] == {R.InTable(s.writer.next, s.writer.op.id)})
  }

  lemma {:induction false} CopyKeepsNew(s: R.Sys, newId: R.TableId)
    requires R.WriterOk(s) && R.OwnersOk(s) && NewOk(s) && R.Enabled(s, R.Copy(newId))
    ensures NewOk(R.Do(s, R.Copy(newId)))
  {
    var t := R.Deref(s, s.writer.prev);
    if s.writer.op.Start? {
      var m := s.writer.op.mod;
      assert R.Holds(newId, t, m) == {};
      assert R.Others(s.owners[m], newId) == {R.WithCaller};
      assert {R.WithCaller} + {} == {R.WithCaller};
    }
  }

  lemma {:induction false} EditKeepsNew(s: R.Sys)
    requires R.WriterOk(s) && R.OwnersOk(s) && NewOk(s) && R.Enabled(s, R.Edit)
    ensures NewOk(R.Do(s, R.Edit))
  {
    if s.writer.op.Start? {
      var m, id, next := s.writer.op.mod, s.writer.op.id, s.writer.next;
      var t := R.EditTable(s.writer.op, s.tables[next]);
      assert R.Holds(next, t, m) == {R.InTable(next, id)};
      assert R.Others(s.owners[m], next) == {R.WithCaller};
      assert R.Rehold(s.owners, next, t)[m] == {R.WithCaller} + {R.InTable(next, id)};
      assert {R.WithCaller} + {R.InTable(next, id)} - {R.WithCaller} == {R.InTable(next, id)};
    }
  }

  lemma {:induction false} ReclaimKeepsNew(s: R.Sys, t: R.TableId)
    requires R.WriterOk(s) && NewOk(s) && R.Enabled(s, R.Reclaim(t))
    ensures NewOk(R.Do(s, R.Reclaim(t)))
  {
    if R.CallerMod(s.writer).Some? {
      var m := R.CallerMod(s.writer).value;
      assert R.Others(s.owners[m], t) + R.Holds(t, R.EMPTY, m) == {R.WithCaller};
    }
    if s.writer.Edited? && s.writer.op.Start? {
      var m := s.writer.op.mod;
      assert R.Others(s.owners[m], t) + R.Holds(t, R.EMPTY, m) == {R.InTable(s.writer.next, s.writer.op.id)};
    }
  }

  lemma {:induction false} StepKeepsNew(s: R.Sys, a: R.Step)
    requires R.WriterOk(s) && R.OwnersOk(s) && NewOk(s) && R.Enabled(s, a)
    ensures NewOk(R.Do(s, a))
  {
    match a {
      case Copy(newId) => CopyKeepsNew(s, newId);
      case Edit => EditKeepsNew(s);
      case Reclaim(t) => ReclaimKeepsNew(s, t);
      case _ =>
    }
  }

  /** When its table is swapped in, neither the current table nor one that a reader holds points to it. */
  lemma {:induction false} NewToAll(s: R.Sys, t: R.TableId)
    requires R.WriterOk(s) && R.OwnersOk(s) && NewOk(s) && s.writer.Edited? && s.writer.op.Start?
    requires t in s.tables && t != s.writer.next
    ensures !E.Points(s.tables[t], s.writer.op.mod)
  {
    forall k | k in s.tables[t].mods ensures s.tables[t].mods[k] != s.writer.op.mod {
      assert R.InTable(t, k) in s.owners[s.tables[t].mods[k]];
    }
  }

  // ---------------------------------------------------------------------------
  // The two stay in step
  // ---------------------------------------------------------------------------

  predicate IsHolding(s: R.Sys, r: R.Reader) { r in s.readers && s.readers[r].Holding? }

  /** The engine's table is the current one, and its tick is on the table that the event thread holds. */
  ghost predicate InStep<M, D, V, O>(s: R.Sys, w: E.World<M, D, V, O>, r: R.Reader) {
    && w.table == R.Deref(s, s.current)
    && (w.ticking.Some? <==> IsHolding(s, r))
    && (w.ticking.Some? ==> w.ticking.value.snapshot == R.Deref(s, s.readers[r].table))
  }

  ghost predicate Inv<M, D, V, O>(j: Joint<M, D, V, O>, r: R.Reader) {
    R.Inv(j.sys) && NewOk(j.sys) && InStep(j.sys, j.world, r)
  }

  /** The engine's step can be taken whenever the protocol's can. */
  lemma {:induction false} MatchingEnabled<M, D, V, O>(
    j: Joint<M, D, V, O>, a: R.Step, r: R.Reader, d: Data<M, D, V>)
    requires Inv(j, r) && R.Enabled(j.sys, a) && Program(j, a, r) && Matching(j.sys, a, r, d).Some?
    ensures E.Enabled(j.world, Matching(j.sys, a, r, d).value)
  {
    if a.Swap? && j.sys.writer.op.Start? {
      InstallEnabled(j, r);
    }
  }

  lemma {:induction false} InstallEnabled<M, D, V, O>(j: Joint<M, D, V, O>, r: R.Reader)
    requires Inv(j, r) && j.sys.writer.Edited? && j.sys.writer.op.Start?
    ensures !E.Points(j.world.table, j.sys.writer.op.mod)
    ensures j.world.ticking.Some? ==> !E.Points(j.world.ticking.value.snapshot, j.sys.writer.op.mod)
  {
    var s := j.sys;
    NewToAll(s, s.current.value);
    if j.world.ticking.Some? {
      assert R.ReaderSafe(s, r);
      NewToAll(s, s.readers[r].table.value);
    }
  }

  /** What a step of the protocol does to the current table and to the one that the event thread holds. */
  lemma {:induction false} SharedFollows(s: R.Sys, a: R.Step, r: R.Reader)
    requires R.Inv(s) && R.Enabled(s, a)
    ensures var s' := R.Do(s, a);
            && R.Deref(s', s'.current)
               == (if a.Swap? then R.EditTable(s.writer.op, R.Deref(s, s.current)) else R.Deref(s, s.current))
            && (IsHolding(s', r) <==> a == R.ReaderLoad(r) || (IsHolding(s, r) && a != R.ReaderExit(r)))
            && (IsHolding(s', r) ==>
                  R.Deref(s', s'.readers[r].table)
                  == R.Deref(s, if a == R.ReaderLoad(r) then s.current else s.readers[r].table))
  {
    if a.Swap? {
      R.SwapEffect(s);
    } else {
      R.CurrentStays(s, a);
    }
    HoldingFollows(s, a, r);
    if IsHolding(s, r) && a != R.ReaderExit(r) {
      R.HeldTableStays(s, r, a);
    }
  }

  lemma {:induction false} HoldingFollows(s: R.Sys, a: R.Step, r: R.Reader)
    requires R.Enabled(s, a)
    ensures var s' := R.Do(s, a);
            && (IsHolding(s', r) <==> a == R.ReaderLoad(r) || (IsHolding(s, r) && a != R.ReaderExit(r)))
            && (a == R.ReaderLoad(r) ==>
                  !IsHolding(s, r) && R.Deref(s', s'.readers[r].table) == R.Deref(s, s.current))
  {
  }

  /** What a step of the engine does to them. */
  lemma {:induction false} WorldFollows<M, D, V, O>(
    b: Behaviour<M, D, V, O>, w: E.World<M, D, V, O>, step: E.Step<M, D, V>)
    requires E.Enabled(w, step)
    ensures var w' := E.Do(b, w, step);
            && w'.table == (match step
                            case Install(id, mod, _) => R.EditTable(R.Start(id, mod), w.table)
                            case Remove(id) => R.EditTable(R.Stop(id), w.table)
                            case _ => w.table)
            && (w'.ticking.Some? <==> step.Load? || (w.ticking.Some? && !step.Leave?))
            && (w'.ticking.Some? ==>
                  w'.ticking.value.snapshot == if step.Load? then w.table else w.ticking.value.snapshot)
  {
  }

  lemma {:induction false} StepInStep<M, D, V, O>(
    b: Behaviour<M, D, V, O>, j: Joint<M, D, V, O>, a: R.Step, r: R.Reader, d: Data<M, D, V>)
    requires Inv(j, r) && R.Enabled(j.sys, a) && Program(j, a, r)
    ensures var j' := Do(b, j, a, r, d); InStep(j'.sys, j'.world, r)
  {
    SharedFollows(j.sys, a, r);
    var step := Matching(j.sys, a, r, d);
    if step.Some? {
      MatchingEnabled(j, a, r, d);
      WorldFollows(b, j.world, step.value);
    }
  }

  ghost predicate StepTo<M(!new), D(!new), V(!new), O(!new)>(
    b: Behaviour<M, D, V, O>, r: R.Reader, j: Joint<M, D, V, O>, j': Joint<M, D, V, O>)
  {
    exists a, d :: R.Enabled(j.sys, a) && Program(j, a, r) && j' == Do(b, j, a, r, d)
  }

  ghost predicate StepAt<M(!new), D(!new), V(!new), O(!new)>(
    b: Behaviour<M, D, V, O>, r: R.Reader, trace: seq<Joint<M, D, V, O>>, i: nat)
    requires i + 1 < |trace|
  {
    StepTo(b, r, trace[i], trace[i + 1])
  }

  /** Runs of the protocol with any number of readers, of which `r` is the event thread. */
  ghost predicate IsRun<M(!new), D(!new), V(!new), O(!new)>(
    b: Behaviour<M, D, V, O>, r: R.Reader, trace: seq<Joint<M, D, V, O>>)
  {
    && |trace| > 0 && R.Init(trace[0].sys) && E.Init(trace[0].world)
    && forall i :: 0 <= i < |trace| - 1 ==> StepAt(b, r, trace, i)
  }

  lemma {:induction false} StepKeepsInv<M(!new), D(!new), V(!new), O(!new)>(
    b: Behaviour<M, D, V, O>, r: R.Reader, j: Joint<M, D, V, O>, j': Joint<M, D, V, O>)
    requires Inv(j, r) && StepTo(b, r, j, j')
    ensures Inv(j', r)
    ensures j'.world == j.world || E.StepTo(b, j.world, j'.world)
  {
    var a, d :| R.Enabled(j.sys, a) && Program(j, a, r) && j' == Do(b, j, a, r, d);
    StepInStep(b, j, a, r, d);
    StepKeepsNew(j.sys, a);
    assert R.StepTo(j.sys, j'.sys);
    R.StepKeepsInv(j.sys, j'.sys);
  }

  lemma {:induction false} InitInv<M, D, V, O>(j: Joint<M, D, V, O>, r: R.Reader)
    requires R.Init(j.sys) && E.Init(j.world)
    ensures Inv(j, r)
  {
    R.InitInv(j.sys);
    R.InitEmpty(j.sys);
  }

  lemma {:induction false} InitAgrees<M, D, V, O>(b: Behaviour<M, D, V, O>, w: E.World<M, D, V, O>)
    requires E.Init(w)
    ensures E.Pointed(w) && E.Agrees(b, w)
  {
  }

  lemma {:induction false} RunKeepsInv<M(!new), D(!new), V(!new), O(!new)>(
    b: Behaviour<M, D, V, O>, r: R.Reader, trace: seq<Joint<M, D, V, O>>, i: nat)
    requires IsRun(b, r, trace) && i < |trace|
    ensures Inv(trace[i], r) && E.Pointed(trace[i].world) && E.Agrees(b, trace[i].world)
    decreases i
  {
    if i == 0 {
      InitInv(trace[0], r);
      InitAgrees(b, trace[0].world);
    } else {
      RunKeepsInv(b, r, trace, i - 1);
      assert StepAt(b, r, trace, i - 1);
      StepKeepsInv(b, r, trace[i - 1], trace[i]);
      if trace[i].world != trace[i - 1].world {
        E.StepAgrees(b, trace[i - 1].world, trace[i].world);
      }
    }
  }

  /**
   The engine over the protocol takes only steps of `EngineTurns`: every swap of a table installs or removes a
   modulator, every use of the held table is a turn, and nothing else is visible.
   */
  lemma {:induction false} ProtocolTakesTurns<M(!new), D(!new), V(!new), O(!new)>(
    b: Behaviour<M, D, V, O>, r: R.Reader, trace: seq<Joint<M, D, V, O>>, i: nat)
    requires IsRun(b, r, trace) && i + 1 < |trace|
    ensures trace[i + 1].world == trace[i].world || E.StepTo(b, trace[i].world, trace[i + 1].world)
  {
    RunKeepsInv(b, r, trace, i);
    assert StepAt(b, r, trace, i);
    StepKeepsInv(b, r, trace[i], trace[i + 1]);
  }

  /**
   So in every run of the protocol, whenever the event thread is outside a tick, the modulators behind the current
   table and everything recorded are what atomic calls, ticks among them, make of a new engine.
   */
  lemma {:induction false} EngineIsAtomic<M(!new), D(!new), V(!new), O(!new)>(
    b: Behaviour<M, D, V, O>, r: R.Reader, trace: seq<Joint<M, D, V, O>>, i: nat)
    requires IsRun(b, r, trace) && i < |trace| && !IsHolding(trace[i].sys, r)
    ensures var s, w := trace[i].sys, trace[i].world;
            E.Contents(w.heap, R.Deref(s, s.current).mods) == Exec(b, w.before).mods
            && R.Deref(s, s.current).order == Exec(b, w.before).order && w.ticks == Exec(b, w.before).ticks
  {
    RunKeepsInv(b, r, trace, i);
  }

  /** The contents that a step changes are those of the modulators the protocol says it touches, and these are alive. */
  lemma {:induction false} WritesWhatItTouches<M(!new), D(!new), V(!new), O(!new)>(
    b: Behaviour<M, D, V, O>, r: R.Reader, trace: seq<Joint<M, D, V, O>>, i: nat,
    a: R.Step, d: Data<M, D, V>, mod: E.Mod)
    requires IsRun(b, r, trace) && i < |trace| && R.Enabled(trace[i].sys, a) && Program(trace[i], a, r)
    requires mod in trace[i].world.heap && !a.Swap?
    ensures var w, w' := trace[i].world, Do(b, trace[i], a, r, d).world;
            && mod in w'.heap
            && (w'.heap[mod] != w.heap[mod] ==>
                  mod in R.Touches(trace[i].sys, a) && mod in trace[i].sys.owners)
  {
    RunKeepsInv(b, r, trace, i);
    TouchesHeap(b, trace[i], a, r, d, mod);
    TouchesAlive(trace[i].sys, a);
  }

  /** The modulator whose content a step of the engine replaces. */
  function WrittenBy<M, D, V, O>(w: E.World<M, D, V, O>, step: E.Step<M, D, V>): set<E.Mod>
    requires E.Enabled(w, step)
  {
    match step
    case Install(_, mod, _) => {mod}
    case Set(id, _, _) => if id in w.table.mods then {w.table.mods[id]} else {}
    case Turn =>
      var s := w.ticking.value.snapshot;
      var id := s.order[w.ticking.value.turns];
      if id in s.mods then {s.mods[id]} else {}
    case _ => {}
  }

  lemma {:induction false} WritesOnly<M, D, V, O>(
    b: Behaviour<M, D, V, O>, w: E.World<M, D, V, O>, step: E.Step<M, D, V>, mod: E.Mod)
    requires E.Enabled(w, step) && mod in w.heap
    ensures mod in E.Do(b, w, step).heap
    ensures mod in WrittenBy(w, step) || E.Do(b, w, step).heap[mod] == w.heap[mod]
  {
  }

  lemma {:induction false} WrittenIsTouched<M, D, V, O>(
    j: Joint<M, D, V, O>, a: R.Step, r: R.Reader, d: Data<M, D, V>)
    requires Inv(j, r) && R.Enabled(j.sys, a) && Program(j, a, r) && !a.Swap?
    requires Matching(j.sys, a, r, d).Some? && E.Enabled(j.world, Matching(j.sys, a, r, d).value)
    ensures WrittenBy(j.world, Matching(j.sys, a, r, d).value) <= R.Touches(j.sys, a)
  {
    if a.Update? {
      assert j.world.table == R.Deref(j.sys, j.sys.writer.prev);
    }
  }

  lemma {:induction false} TouchesHeap<M, D, V, O>(
    b: Behaviour<M, D, V, O>, j: Joint<M, D, V, O>, a: R.Step, r: R.Reader, d: Data<M, D, V>, mod: E.Mod)
    requires Inv(j, r) && R.Enabled(j.sys, a) && Program(j, a, r) && mod in j.world.heap && !a.Swap?
    ensures var w' := Do(b, j, a, r, d).world;
            mod in w'.heap && (w'.heap[mod] != j.world.heap[mod] ==> mod in R.Touches(j.sys, a))
  {
    var step := Matching(j.sys, a, r, d);
    if step.Some? {
      MatchingEnabled(j, a, r, d);
      WritesOnly(b, j.world, step.value, mod);
      WrittenIsTouched(j, a, r, d);
    }
  }

  lemma {:induction false} TouchesAlive(s: R.Sys, a: R.Step)
    requires R.Inv(s) && R.Enabled(s, a)
    ensures R.Touches(s, a) <= s.owners.Keys
  {
    if a.ReaderUse? {
      assert R.ReaderSafe(s, a.r);
    }
  }
}
