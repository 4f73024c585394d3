/**
 A tick of the modulator engine as it really happens (include/nomos/rt/modulator_engine.hpp, src/modulator_engine.cpp):
 the event thread loads one table and ticks its modulators one after the other, while the control thread goes on to
 start, stop and update modulators.

 Tables hold pointers, so a modulator that a started one has replaced may still get its turn, and an update
 may reach a modulator before its turn or after it.  Each turn, update and installation of a table is one step.
 The last two fields of a world are history: the calls in the order in which an engine with atomic ticks makes them.
 */
module EngineTurns {
  import opened Basics
  import opened ModulatorEngine
  import opened EngineRuns
  import R = Rcu

  type Mod = R.ModId

  /** A tick under way: the table it loaded, how many turns it has taken and what they recorded. */
  datatype Ticking<D, V, O> = Ticking(snapshot: R.Table, beat: D, rate: V, turns: nat, calls: seq<Record<O>>)

  datatype World<M, D, V, O> = World(
    heap: map<Mod, M>, table: R.Table, ticks: seq<seq<Record<O>>>, ticking: Option<Ticking<D, V, O>>,
    before: seq<Call<M, D, V>>, after: seq<Call<M, D, V>>)

  datatype Step<M, D, V> =
    | Install(id: string, mod: Mod, content: M) | Remove(id: string) | Set(id: string, key: string, value: V)
    | Load(beat: D, rate: V) | Turn | Leave

  predicate Points(t: R.Table, mod: Mod) { exists id :: id in t.mods && t.mods[id] == mod }

  predicate Enabled<M, D, V, O>(w: World<M, D, V, O>, a: Step<M, D, V>) {
    match a
    case Install(_, mod, _) =>
      !Points(w.table, mod) && (w.ticking.Some? ==> !Points(w.ticking.value.snapshot, mod))
    case Load(_, _) => w.ticking.None?
    case Turn => w.ticking.Some? && w.ticking.value.turns < |w.ticking.value.snapshot.order|
    case Leave => w.ticking.Some? && w.ticking.value.turns == |w.ticking.value.snapshot.order|
    case _ => true
  }

  /** The modulator a call names is one that the tick under way has still to run. */
  predicate Waiting<M, D, V, O>(w: World<M, D, V, O>, id: string) {
    && w.ticking.Some? && w.ticking.value.turns <= |w.ticking.value.snapshot.order|
    && id in w.ticking.value.snapshot.order[w.ticking.value.turns..]
    && id in w.table.mods && id in w.ticking.value.snapshot.mods
    && w.table.mods[id] == w.ticking.value.snapshot.mods[id]
  }

  /** Without a tick under way, calls are made in order; during one, after it, except updates that it will see. */
  function Logged<M, D, V, O>(w: World<M, D, V, O>, c: Call<M, D, V>, early: bool): World<M, D, V, O> {
    if w.ticking.None? || early then w.(before := w.before + [c]) else w.(after := w.after + [c])
  }

  /** What the event thread can look up. */
  function Readable<M, D, V, O>(w: World<M, D, V, O>): map<string, O> {
    var earlier := After(map[], Flatten(w.ticks));
    if w.ticking.Some? then After(earlier, w.ticking.value.calls) else earlier
  }

  function TakeTurn<M, D, V, O>(b: Behaviour<M, D, V, O>, w: World<M, D, V, O>): World<M, D, V, O>
    requires Enabled(w, Turn)
  {
    var t := w.ticking.value;
    var id := t.snapshot.order[t.turns];
    if id in t.snapshot.mods && t.snapshot.mods[id] in w.heap then
      var mod := t.snapshot.mods[id];
      var r := (b.tick)(w.heap[mod], t.beat, t.rate, Readable(w));
      w.(heap := w.heap[mod := r.0],
         ticking := Some(t.(turns := t.turns + 1, calls := t.calls + [Record(id, r.1)])))
    else w.(ticking := Some(t.(turns := t.turns + 1)))
  }

  function Do<M, D, V, O>(b: Behaviour<M, D, V, O>, w: World<M, D, V, O>, a: Step<M, D, V>): World<M, D, V, O>
    requires Enabled(w, a)
  {
    match a
    case Install(id, mod, content) =>
      Logged(w.(heap := w.heap[mod := content], table := R.EditTable(R.Start(id, mod), w.table)),
             Start(id, content), false)
    case Remove(id) => Logged(w.(table := R.EditTable(R.Stop(id), w.table)), Stop(id), false)
    case Set(id, key, value) =>
      Logged(if id in w.table.mods && w.table.mods[id] in w.heap then Assigned(b, w, id, key, value) else w,
             Update(id, key, value), Waiting(w, id))
    case Load(beat, rate) => w.(ticking := Some(Ticking(w.table, beat, rate, 0, [])))
    case Turn => TakeTurn(b, w)
    case Leave =>
      var t := w.ticking.value;
      w.(ticks := w.ticks + [t.calls], ticking := None,
         before := w.before + [Tick(t.beat, t.rate)] + w.after, after := [])
  }

  function Assigned<M, D, V, O>(
    b: Behaviour<M, D, V, O>, w: World<M, D, V, O>, id: string, key: string, value: V): World<M, D, V, O>
    requires id in w.table.mods && w.table.mods[id] in w.heap
  {
    var mod := w.table.mods[id];
    w.(heap := w.heap[mod := (b.update)(w.heap[mod], key, value)])
  }

  predicate Init<M, D, V, O>(w: World<M, D, V, O>) {
    w.table == R.EMPTY && w.ticks == [] && w.ticking.None? && w.before == [] && w.after == []
  }

  ghost predicate StepTo<M(!new), D(!new), V(!new), O(!new)>(
    b: Behaviour<M, D, V, O>, w: World<M, D, V, O>, w': World<M, D, V, O>)
  {
    exists a :: Enabled(w, a) && w' == Do(b, w, a)
  }

  ghost predicate StepAt<M(!new), D(!new), V(!new), O(!new)>(
    b: Behaviour<M, D, V, O>, trace: seq<World<M, D, V, O>>, i: nat)
    requires i + 1 < |trace|
  {
    StepTo(b, trace[i], trace[i + 1])
  }

  ghost predicate IsRun<M(!new), D(!new), V(!new), O(!new)>(
    b: Behaviour<M, D, V, O>, trace: seq<World<M, D, V, O>>)
  {
    && |trace| > 0 && Init(trace[0])
    && forall i :: 0 <= i < |trace| - 1 ==> StepAt(b, trace, i)
  }

  // ---------------------------------------------------------------------------
  // Atomic calls, some of which are made later
  // ---------------------------------------------------------------------------

  /** The table after further calls. */
  function Apply<M, D, V, O>(b: Behaviour<M, D, V, O>, t: Table<M, O>, calls: seq<Call<M, D, V>>): Table<M, O> {
    if calls == [] then t else ModulatorEngine.Do(b, Apply(b, t, calls[..|calls| - 1]), calls[|calls| - 1])
  }

  lemma {:induction false} ApplyOne<M, D, V, O>(
    b: Behaviour<M, D, V, O>, t: Table<M, O>, calls: seq<Call<M, D, V>>, c: Call<M, D, V>)
    ensures Apply(b, t, calls + [c]) == ModulatorEngine.Do(b, Apply(b, t, calls), c)
  {
    assert (calls + [c])[..|calls|] == calls;
  }

  lemma {:induction false} ExecApply<M, D, V, O>(
    b: Behaviour<M, D, V, O>, first: seq<Call<M, D, V>>, rest: seq<Call<M, D, V>>)
    ensures Exec(b, first + rest) == Apply(b, Exec<M, D, V, O>(b, first), rest)
    decreases |rest|
  {
    if rest == [] {
      assert first + rest == first;
    } else {
      var n := |rest| - 1;
      ExecApply<M, D, V, O>(b, first, rest[..n]);
      assert (first + rest)[..|first| + n] == first + rest[..n];
    }
  }

  predicate Names<M, D, V>(c: Call<M, D, V>, id: string) { !c.Tick? && c.id == id }

  predicate Named<M, D, V>(calls: seq<Call<M, D, V>>, id: string) {
    calls != [] && (Named(calls[..|calls| - 1], id) || Names(calls[|calls| - 1], id))
  }

  /** The first call that names the id, if any, is a start or a stop; there are no ticks. */
  predicate Blind<M, D, V>(calls: seq<Call<M, D, V>>, id: string) {
    calls == [] ||
    var front, c := calls[..|calls| - 1], calls[|calls| - 1];
    Blind(front, id) && (c.Update? && c.id == id ==> Named(front, id))
  }

  predicate Ticks<M, D, V>(calls: seq<Call<M, D, V>>) {
    calls != [] && (Ticks(calls[..|calls| - 1]) || calls[|calls| - 1].Tick?)
  }

  function With<M, O>(t: Table<M, O>, id: string, content: M): Table<M, O> { t.(mods := t.mods[id := content]) }

  /** One such call, made on a modulator with other content. */
  lemma {:induction false} DoWith<M, D, V, O>(
    b: Behaviour<M, D, V, O>, t: Table<M, O>, c: Call<M, D, V>, id: string, content: M)
    requires id in t.mods && !c.Tick? && !(c.Update? && c.id == id)
    ensures var u, v := ModulatorEngine.Do(b, t, c), ModulatorEngine.Do(b, With(t, id, content), c);
            if Names(c, id) then v == u else id in u.mods && v == With(u, id, content)
  {
    match c {
      case Start(x, m) =>
        if x != id {
          assert t.mods[id := content][x := m] == t.mods[x := m][id := content];
        } else {
          assert t.mods[id := content][x := m] == t.mods[x := m];
        }
      case Stop(x) =>
        if x != id {
          assert t.mods[id := content] - {x} == (t.mods - {x})[id := content];
        } else {
          assert t.mods[id := content] - {x} == t.mods - {x};
        }
      case Update(x, key, value) =>
        if x in t.mods {
          var m := (b.update)(t.mods[x], key, value);
          assert t.mods[id := content][x := m] == t.mods[x := m][id := content];
        }
    }
  }

  /** Calls that are blind to a modulator's content keep it, or make it irrelevant. */
  lemma {:induction false} ApplyWith<M, D, V, O>(
    b: Behaviour<M, D, V, O>, t: Table<M, O>, calls: seq<Call<M, D, V>>, id: string, content: M)
    requires id in t.mods && !Ticks(calls) && Blind(calls, id)
    ensures var u, v := Apply(b, t, calls), Apply(b, With(t, id, content), calls);
            if Named(calls, id) then v == u else id in u.mods && v == With(u, id, content)
  {
    if calls != [] {
      var front, c := calls[..|calls| - 1], calls[|calls| - 1];
      ApplyWith(b, t, front, id, content);
      if !Named(front, id) {
        DoWith(b, Apply(b, t, front), c, id, content);
      }
    }
  }

  lemma {:induction false} ApplyTicks<M, D, V, O>(
    b: Behaviour<M, D, V, O>, t: Table<M, O>, calls: seq<Call<M, D, V>>, ticks: seq<seq<Record<O>>>)
    requires !Ticks(calls)
    ensures Apply(b, t.(ticks := ticks), calls) == Apply(b, t, calls).(ticks := ticks)
  {
    if calls != [] {
      ApplyTicks(b, t, calls[..|calls| - 1], ticks);
    }
  }

  /** The turns taken so far do not depend on the content of a modulator whose turn is still to come. */
  lemma {:induction false} RunToWith<M, D, V, O>(
    b: Behaviour<M, D, V, O>, t: Table<M, O>, beat: D, rate: V, n: nat, id: string, content: M)
    requires n <= |t.order| && id in t.mods && id !in t.order[..n]
    ensures var p, q := RunTo(b, t, beat, rate, n), RunTo(b, With(t, id, content), beat, rate, n);
            id in p.mods && q == p.(mods := p.mods[id := content])
  {
    if n > 0 {
      assert t.order[..n][n - 1] == t.order[n - 1];
      assert t.order[..n - 1] <= t.order[..n];
      RunToWith(b, t, beat, rate, n - 1, id, content);
      var p, x := RunTo(b, t, beat, rate, n - 1), t.order[n - 1];
      if x in p.mods {
        var r := (b.tick)(p.mods[x], beat, rate, After(Outputs(t), p.calls));
        assert p.mods[id := content][x := r.0] == p.mods[x := r.0][id := content];
      }
    }
  }

  // ---------------------------------------------------------------------------
  // What every step keeps
  // ---------------------------------------------------------------------------

  /** The content behind the pointers of a table. */
  function Contents<M>(heap: map<Mod, M>, mods: map<string, Mod>): map<string, M> {
    map id | id in mods && mods[id] in heap :: heap[mods[id]]
  }

  /** The engine as its callers see it. */
  function Present<M, D, V, O>(w: World<M, D, V, O>): Table<M, O> {
    Table(Contents(w.heap, w.table.mods), w.table.order, w.ticks)
  }

  /** Only under the same id do two tables share a modulator. */
  ghost predicate Apart(t: R.Table, u: R.Table) {
    forall x, y :: x in t.mods && y in u.mods && t.mods[x] == u.mods[y] ==> x == y
  }

  ghost predicate Alive<M>(heap: map<Mod, M>, t: R.Table) { forall id :: id in t.mods ==> t.mods[id] in heap }

  ghost predicate Pointed<M, D, V, O>(w: World<M, D, V, O>) {
    && Alive(w.heap, w.table) && Apart(w.table, w.table)
    && (w.ticking.Some? ==>
          var s := w.ticking.value.snapshot; Alive(w.heap, s) && Apart(s, s) && Apart(s, w.table))
  }

  function Ran<M, D, V, O>(b: Behaviour<M, D, V, O>, t: Table<M, O>, beat: D, rate: V, n: nat): Table<M, O>
    requires n <= |t.order|
  {
    t.(mods := RunTo(b, t, beat, rate, n).mods)
  }

  /**
   The modulator in position `i` of the snapshot has its content from before the tick, and the calls made since
   name it exactly if the table no longer points to it.
   */
  ghost predicate Waits<M, D, V, O>(w: World<M, D, V, O>, t: Table<M, O>, i: nat)
    requires w.ticking.Some? && i < |w.ticking.value.snapshot.order|
  {
    var s := w.ticking.value.snapshot;
    var id := s.order[i];
    && id in s.mods && id in t.mods && s.mods[id] in w.heap && w.heap[s.mods[id]] == t.mods[id]
    && Blind(w.after, id)
    && (Named(w.after, id) <==> !(id in w.table.mods && w.table.mods[id] == s.mods[id]))
  }

  /** The tick under way is the tick of an engine in state `t`, to which the later calls have not yet been made. */
  ghost predicate MidTick<M, D, V, O>(b: Behaviour<M, D, V, O>, w: World<M, D, V, O>, t: Table<M, O>)
    requires w.ticking.Some?
  {
    var k := w.ticking.value;
    && k.turns <= |k.snapshot.order| && k.snapshot.order == t.order && w.ticks == t.ticks && Wf(t)
    && k.calls == RunTo(b, t, k.beat, k.rate, k.turns).calls
    && !Ticks(w.after) && Present(w) == Apply(b, Ran(b, t, k.beat, k.rate, k.turns), w.after)
    && forall i :: k.turns <= i < |k.snapshot.order| ==> Waits(w, t, i)
  }

  ghost predicate Agrees<M, D, V, O>(b: Behaviour<M, D, V, O>, w: World<M, D, V, O>) {
    if w.ticking.None? then w.after == [] && Present(w) == Exec(b, w.before)
    else MidTick(b, w, Exec(b, w.before))
  }

  lemma {:induction false} StepPointed<M, D, V, O>(b: Behaviour<M, D, V, O>, w: World<M, D, V, O>, a: Step<M, D, V>)
    requires Pointed(w) && Enabled(w, a)
    ensures Pointed(Do(b, w, a))
  {
  }

  /** New content for a modulator that the table points to, or does not. */
  lemma {:induction false} WriteContents<M>(heap: map<Mod, M>, t: R.Table, mod: Mod, content: M)
    requires Alive(heap, t) && Apart(t, t)
    ensures !Points(t, mod) ==> Contents(heap[mod := content], t.mods) == Contents(heap, t.mods)
    ensures forall id :: id in t.mods && t.mods[id] == mod ==>
              Contents(heap[mod := content], t.mods) == Contents(heap, t.mods)[id := content]
  {
  }

  lemma {:induction false} PresentInstall<M, D, V, O>(
    b: Behaviour<M, D, V, O>, w: World<M, D, V, O>, id: string, mod: Mod, content: M)
    requires Pointed(w) && Enabled(w, Install(id, mod, content))
    ensures Present(Do(b, w, Install(id, mod, content))) == ModulatorEngine.Do(b, Present(w), Start(id, content))
  {
    var heap, mods := w.heap[mod := content], w.table.mods[id := mod];
    assert forall x :: x in w.table.mods ==> w.table.mods[x] != mod;
    assert Contents(heap, mods) == Contents(w.heap, w.table.mods)[id := content];
    assert id in w.table.mods <==> id in Present(w).mods;
  }

  lemma {:induction false} PresentRemove<M, D, V, O>(b: Behaviour<M, D, V, O>, w: World<M, D, V, O>, id: string)
    requires Pointed(w)
    ensures Present(Do(b, w, Remove(id))) == ModulatorEngine.Do(b, Present(w), Stop(id))
  {
    assert Contents(w.heap, w.table.mods - {id}) == Contents(w.heap, w.table.mods) - {id};
  }

  lemma {:induction false} PresentSet<M, D, V, O>(
    b: Behaviour<M, D, V, O>, w: World<M, D, V, O>, id: string, key: string, value: V)
    requires Pointed(w)
    ensures Present(Do(b, w, Set(id, key, value))) == ModulatorEngine.Do(b, Present(w), Update(id, key, value))
  {
    if id in w.table.mods {
      var mod := w.table.mods[id];
      WriteContents(w.heap, w.table, mod, (b.update)(w.heap[mod], key, value));
    }
  }

  // ---------------------------------------------------------------------------
  // Steps during a tick
  // ---------------------------------------------------------------------------

  lemma {:induction false} NamedOne<M, D, V>(calls: seq<Call<M, D, V>>, c: Call<M, D, V>, id: string)
    ensures Named(calls + [c], id) <==> Named(calls, id) || Names(c, id)
    ensures Blind(calls + [c], id) <==> Blind(calls, id) && (c.Update? && c.id == id ==> Named(calls, id))
    ensures Ticks(calls + [c]) <==> Ticks(calls) || c.Tick?
  {
    assert (calls + [c])[..|calls|] == calls;
  }

  lemma {:induction false} InstallMidTick<M, D, V, O>(
    b: Behaviour<M, D, V, O>, w: World<M, D, V, O>, t: Table<M, O>, id: string, mod: Mod, content: M)
    requires w.ticking.Some? && Pointed(w) && MidTick(b, w, t) && Enabled(w, Install(id, mod, content))
    ensures MidTick(b, Do(b, w, Install(id, mod, content)), t)
  {
    var w', k := Do(b, w, Install(id, mod, content)), w.ticking.value;
    PresentInstall(b, w, id, mod, content);
    ApplyOne(b, Ran(b, t, k.beat, k.rate, k.turns), w.after, Start(id, content));
    NamedOne(w.after, Start(id, content), id);
    forall i | k.turns <= i < |k.snapshot.order| ensures Waits(w', t, i) {
      assert Waits(w, t, i);
      NamedOne(w.after, Start(id, content), k.snapshot.order[i]);
    }
  }

  lemma {:induction false} RemoveMidTick<M, D, V, O>(
    b: Behaviour<M, D, V, O>, w: World<M, D, V, O>, t: Table<M, O>, id: string)
    requires w.ticking.Some? && Pointed(w) && MidTick(b, w, t)
    ensures MidTick(b, Do(b, w, Remove(id)), t)
  {
    var w', k := Do(b, w, Remove(id)), w.ticking.value;
    PresentRemove(b, w, id);
    ApplyOne(b, Ran(b, t, k.beat, k.rate, k.turns), w.after, Stop(id));
    NamedOne(w.after, Stop(id), id);
    forall i | k.turns <= i < |k.snapshot.order| ensures Waits(w', t, i) {
      assert Waits(w, t, i);
      NamedOne(w.after, Stop(id), k.snapshot.order[i]);
    }
  }

  /** An update that the tick does not see. */
  lemma {:induction false} LateSetMidTick<M, D, V, O>(
    b: Behaviour<M, D, V, O>, w: World<M, D, V, O>, t: Table<M, O>, id: string, key: string, value: V)
    requires w.ticking.Some? && Pointed(w) && MidTick(b, w, t) && !Waiting(w, id)
    ensures MidTick(b, Do(b, w, Set(id, key, value)), t)
  {
    var w', k := Do(b, w, Set(id, key, value)), w.ticking.value;
    var c := Update(id, key, value);
    PresentSet(b, w, id, key, value);
    ApplyOne(b, Ran(b, t, k.beat, k.rate, k.turns), w.after, c);
    NamedOne(w.after, c, id);
    forall i | k.turns <= i < |k.snapshot.order| ensures Waits(w', t, i) {
      var x := k.snapshot.order[i];
      assert Waits(w, t, i);
      assert x in k.snapshot.order[k.turns..];
      NamedOne(w.after, c, x);
    }
  }

  /** A modulator whose turn is still to come stands nowhere among those that have run. */
  lemma {:induction false} StillToRun<M, O>(t: Table<M, O>, i: nat, n: nat)
    requires Wf(t) && n <= i < |t.order|
    ensures t.order[i] !in t.order[..n]
  {
  }

  /** Changing the content of a waiting modulator changes what callers see if the table still points to it. */
  lemma {:induction false} WriteWaiting<M, D, V, O>(
    b: Behaviour<M, D, V, O>, w: World<M, D, V, O>, t: Table<M, O>, i: nat, content: M)
    requires w.ticking.Some? && Pointed(w) && MidTick(b, w, t)
    requires w.ticking.value.turns <= i < |w.ticking.value.snapshot.order|
    ensures var k := w.ticking.value;
            var id, n := k.snapshot.order[i], k.turns;
            && id in k.snapshot.mods && id in t.mods && id in RunTo(b, t, k.beat, k.rate, n).mods
            && Present(w.(heap := w.heap[k.snapshot.mods[id] := content]))
               == Apply(b, With(Ran(b, t, k.beat, k.rate, n), id, content), w.after)
  {
    var k := w.ticking.value;
    var id, n := k.snapshot.order[i], k.turns;
    var r := Ran(b, t, k.beat, k.rate, n);
    assert Waits(w, t, i);
    var mod := k.snapshot.mods[id];
    StillToRun(t, i, n);
    RunToWith(b, t, k.beat, k.rate, n, id, content);
    ApplyWith(b, r, w.after, id, content);
    WriteContents(w.heap, w.table, mod, content);
    if Named(w.after, id) {
      assert !Points(w.table, mod);
    }
  }

  /** The other waiting modulators keep theirs. */
  lemma {:induction false} OthersWait<M, D, V, O>(
    b: Behaviour<M, D, V, O>, w: World<M, D, V, O>, t: Table<M, O>, i: nat, j: nat, content: M, other: M)
    requires w.ticking.Some? && Pointed(w) && MidTick(b, w, t)
    requires w.ticking.value.turns <= i < |w.ticking.value.snapshot.order|
    requires w.ticking.value.turns <= j < |w.ticking.value.snapshot.order| && i != j
    ensures var s := w.ticking.value.snapshot;
            && s.order[i] in s.mods
            && Waits(w.(heap := w.heap[s.mods[s.order[i]] := content]), With(t, s.order[i], other), j)
            && Waits(w.(heap := w.heap[s.mods[s.order[i]] := content]), t, j)
  {
    assert Waits(w, t, i) && Waits(w, t, j);
    assert t.order[i] != t.order[j];
  }

  /** An update of a modulator before its turn is as good as made before the tick. */
  lemma {:induction false} EarlySetMidTick<M, D, V, O>(
    b: Behaviour<M, D, V, O>, w: World<M, D, V, O>, t: Table<M, O>, id: string, key: string, value: V)
    requires w.ticking.Some? && Pointed(w) && MidTick(b, w, t) && Waiting(w, id)
    ensures MidTick(b, Do(b, w, Set(id, key, value)), ModulatorEngine.Do(b, t, Update(id, key, value)))
  {
    var w', k := Do(b, w, Set(id, key, value)), w.ticking.value;
    var n := k.turns;
    var j :| 0 <= j < |k.snapshot.order[n..]| && k.snapshot.order[n..][j] == id;
    var i := n + j;
    assert k.snapshot.order[i] == id;
    assert Waits(w, t, i);
    var content := (b.update)(t.mods[id], key, value);
    var t' := ModulatorEngine.Do(b, t, Update(id, key, value));
    assert t' == With(t, id, content);
    var u := w.(heap := w.heap[k.snapshot.mods[id] := content]);
    assert w' == u.(before := w.before + [Update(id, key, value)]);
    WriteWaiting(b, w, t, i, content);
    StillToRun(t, i, n);
    RunToWith(b, t, k.beat, k.rate, n, id, content);
    assert Ran(b, t', k.beat, k.rate, n) == With(Ran(b, t, k.beat, k.rate, n), id, content);
    forall x | n <= x < |k.snapshot.order| ensures Waits(w', t', x) {
      if x != i {
        OthersWait(b, w, t, i, x, content, content);
        assert Waits(u, t', x);
      }
    }
  }

  lemma {:induction false} TurnMidTick<M, D, V, O>(b: Behaviour<M, D, V, O>, w: World<M, D, V, O>, t: Table<M, O>)
    requires w.ticking.Some? && Pointed(w) && MidTick(b, w, t) && Enabled(w, Turn)
    ensures MidTick(b, Do(b, w, Turn), t)
  {
    var w', k := Do(b, w, Turn), w.ticking.value;
    var n := k.turns;
    var id := k.snapshot.order[n];
    assert Waits(w, t, n);
    var p := RunTo(b, t, k.beat, k.rate, n);
    RunToRan(b, t, k.beat, k.rate, n);
    assert p.mods[t.order[n]] == t.mods[id];
    var r := (b.tick)(t.mods[id], k.beat, k.rate, Readable(w));
    assert RunTo(b, t, k.beat, k.rate, n + 1) == Progress(p.mods[id := r.0], p.calls + [Record(id, r.1)]);
    WriteWaiting(b, w, t, n, r.0);
    var u := w.(heap := w.heap[k.snapshot.mods[id] := r.0]);
    assert Present(w') == Present(u);
    forall x | n + 1 <= x < |k.snapshot.order| ensures Waits(w', t, x) {
      OthersWait(b, w, t, n, x, r.0, r.0);
      assert Waits(u, t, x);
    }
  }

  // ---------------------------------------------------------------------------
  // Every step
  // ---------------------------------------------------------------------------

  lemma {:induction false} LoadAgrees<M, D, V, O>(b: Behaviour<M, D, V, O>, w: World<M, D, V, O>, beat: D, rate: V)
    requires w.ticking.None? && Pointed(w) && Agrees(b, w)
    ensures Agrees(b, Do(b, w, Load(beat, rate)))
  {
    var t, w' := Exec(b, w.before), Do(b, w, Load(beat, rate));
    ExecKeepsWf<M, D, V, O>(b, w.before);
    assert Ran(b, t, beat, rate, 0) == t;
    forall i | 0 <= i < |w.table.order| ensures Waits(w', t, i) {
      assert w.table.order[i] in t.order;
    }
  }

  lemma {:induction false} LeaveAgrees<M, D, V, O>(b: Behaviour<M, D, V, O>, w: World<M, D, V, O>)
    requires w.ticking.Some? && MidTick(b, w, Exec(b, w.before)) && Enabled(w, Leave)
    ensures Agrees(b, Do(b, w, Leave))
  {
    var t, k := Exec(b, w.before), w.ticking.value;
    var tick := Tick(k.beat, k.rate);
    ExecOne<M, D, V, O>(b, w.before, tick);
    ExecApply<M, D, V, O>(b, w.before + [tick], w.after);
    ApplyTicks(b, Ran(b, t, k.beat, k.rate, |t.order|), w.after, t.ticks + [k.calls]);
  }

  /** Between ticks every call is made as it comes. */
  lemma {:induction false} IdleAgrees<M, D, V, O>(b: Behaviour<M, D, V, O>, w: World<M, D, V, O>, a: Step<M, D, V>)
    requires w.ticking.None? && Pointed(w) && Agrees(b, w) && Enabled(w, a) && !a.Load?
    ensures Agrees(b, Do(b, w, a))
  {
    match a {
      case Install(id, mod, content) =>
        PresentInstall(b, w, id, mod, content);
        ExecOne<M, D, V, O>(b, w.before, Start(id, content));
      case Remove(id) =>
        PresentRemove(b, w, id);
        ExecOne<M, D, V, O>(b, w.before, Stop(id));
      case Set(id, key, value) =>
        PresentSet(b, w, id, key, value);
        ExecOne<M, D, V, O>(b, w.before, Update(id, key, value));
      case _ =>
    }
  }

  lemma {:induction false} BusyAgrees<M, D, V, O>(b: Behaviour<M, D, V, O>, w: World<M, D, V, O>, a: Step<M, D, V>)
    requires w.ticking.Some? && Pointed(w) && MidTick(b, w, Exec(b, w.before)) && Enabled(w, a)
    ensures Agrees(b, Do(b, w, a))
  {
    var t := Exec(b, w.before);
    match a {
      case Install(id, mod, content) => InstallMidTick(b, w, t, id, mod, content);
      case Remove(id) => RemoveMidTick(b, w, t, id);
      case Set(id, key, value) =>
        if Waiting(w, id) {
          ExecOne<M, D, V, O>(b, w.before, Update(id, key, value));
          EarlySetMidTick(b, w, t, id, key, value);
        } else {
          LateSetMidTick(b, w, t, id, key, value);
        }
      case Turn => TurnMidTick(b, w, t);
      case Leave => LeaveAgrees(b, w);
    }
  }

  lemma {:induction false} StepAgrees<M(!new), D(!new), V(!new), O(!new)>(
    b: Behaviour<M, D, V, O>, w: World<M, D, V, O>, w': World<M, D, V, O>)
    requires Pointed(w) && Agrees(b, w) && StepTo(b, w, w')
    ensures Pointed(w') && Agrees(b, w')
  {
    var a :| Enabled(w, a) && w' == Do(b, w, a);
    StepPointed(b, w, a);
    if w.ticking.Some? {
      BusyAgrees(b, w, a);
    } else if a.Load? {
      LoadAgrees(b, w, a.beat, a.rate);
    } else {
      IdleAgrees(b, w, a);
    }
  }

  lemma {:induction false} RunAgrees<M(!new), D(!new), V(!new), O(!new)>(
    b: Behaviour<M, D, V, O>, trace: seq<World<M, D, V, O>>, i: nat)
    requires IsRun(b, trace) && i < |trace|
    ensures Pointed(trace[i]) && Agrees(b, trace[i])
    decreases i
  {
    if i > 0 {
      RunAgrees(b, trace, i - 1);
      assert StepAt(b, trace, i - 1);
      StepAgrees(b, trace[i - 1], trace[i]);
    }
  }

  /**
   Ticks are atomic: whatever starts, stops and updates come between the turns, in every state without a tick under
   way the engine is what the calls in `before` make of it, each tick being one of them.
   */
  lemma {:induction false} TicksAreAtomic<M(!new), D(!new), V(!new), O(!new)>(
    b: Behaviour<M, D, V, O>, trace: seq<World<M, D, V, O>>, i: nat)
    requires IsRun(b, trace) && i < |trace| && trace[i].ticking.None?
    ensures Present(trace[i]) == Exec(b, trace[i].before)
  {
    RunAgrees(b, trace, i);
  }

  /** And what a tick under way has recorded so far is what the atomic tick records first. */
  lemma {:induction false} RecordsSoFar<M(!new), D(!new), V(!new), O(!new)>(
    b: Behaviour<M, D, V, O>, trace: seq<World<M, D, V, O>>, i: nat)
    requires IsRun(b, trace) && i < |trace| && trace[i].ticking.Some?
    ensures var k, t := trace[i].ticking.value, Exec(b, trace[i].before);
            k.turns <= |t.order| && k.calls == RunTo(b, t, k.beat, k.rate, k.turns).calls
  {
    RunAgrees(b, trace, i);
  }

  /**
   In particular a tick records what an atomic tick at its load would, however many starts and stops have been
   installed since, as long as no update has reached a modulator before its turn, the one thing that moves `before`.
   */
  lemma {:induction false} TickAtLoad<M(!new), D(!new), V(!new), O(!new)>(
    b: Behaviour<M, D, V, O>, trace: seq<World<M, D, V, O>>, i: nat, j: nat)
    requires IsRun(b, trace) && i < j < |trace| && trace[i].ticking.None? && trace[j].ticking.Some?
    requires trace[j].before == trace[i].before
    ensures var k, t := trace[j].ticking.value, Present(trace[i]);
            k.turns <= |t.order| && k.calls == RunTo(b, t, k.beat, k.rate, k.turns).calls
  {
    TicksAreAtomic(b, trace, i);
    RecordsSoFar(b, trace, j);
  }

  /** Only such an update, and the end of the tick, move it. */
  lemma {:induction false} BeforeMoves<M, D, V, O>(b: Behaviour<M, D, V, O>, w: World<M, D, V, O>, a: Step<M, D, V>)
    requires w.ticking.Some? && Enabled(w, a) && !a.Leave?
    ensures Do(b, w, a).before == w.before <==> !(a.Set? && Waiting(w, a.id))
  {
    if a.Set? {
      assert |w.before + [Update(a.id, a.key, a.value)]| == |w.before| + 1;
    }
  }
}
