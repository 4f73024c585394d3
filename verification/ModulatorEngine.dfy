/**
 The modulator engine as its event thread sees it (include/nomos/rt/modulator_engine.hpp,
 src/modulator_engine.cpp): a table of modulators ticked in insertion order, and the outputs they
 record for one another.

 A modulator is an abstract state machine.  `Behaviour` says what a tick does, given the outputs that
 last_output would return at that moment, and what a parameter update does.
 */
module ModulatorEngine {
  import opened Basics

  datatype Behaviour<!M, !D, !V, !O> = Behaviour(
    tick: (M, D, V, map<string, O>) -> (M, O),
    update: (M, string, V) -> M)

  datatype Record<O> = Record(id: string, out: O)

  /** The most recent output recorded under `id`, if there is one. */
  function Latest<O>(log: seq<Record<O>>, id: string): Option<O> {
    if log == [] then None
    else if log[|log| - 1].id == id then Some(log[|log| - 1].out)
    else Latest(log[..|log| - 1], id)
  }

  function Lookup<O>(m: map<string, O>, id: string): Option<O> {
    if id in m then Some(m[id]) else None
  }

  /** The recorded outputs after the records in `log`, starting from `before`. */
  function After<O>(before: map<string, O>, log: seq<Record<O>>): map<string, O> {
    if log == [] then before
    else After(before, log[..|log| - 1])[log[|log| - 1].id := log[|log| - 1].out]
  }

  lemma {:induction false} AfterOne<O>(before: map<string, O>, calls: seq<Record<O>>, last: Record<O>)
    ensures After(before, calls + [last]) == After(before, calls)[last.id := last.out]
  {
    assert (calls + [last])[..|calls|] == calls;
  }

  lemma {:induction false} AfterConcat<O>(before: map<string, O>, a: seq<Record<O>>, b: seq<Record<O>>)
    ensures After(before, a + b) == After(After(before, a), b)
    decreases |b|
  {
    if b == [] {
      assert a + b == a;
    } else {
      AfterConcat(before, a, b[..|b| - 1]);
      assert (a + b)[..|a + b| - 1] == a + b[..|b| - 1];
    }
  }

  /** Looking up what has been recorded gives the latest record. */
  lemma {:induction false} AfterAgrees<O>(log: seq<Record<O>>, id: string)
    ensures Lookup(After(map[], log), id) == Latest(log, id)
  {
    if log != [] {
      AfterAgrees(log[..|log| - 1], id);
    }
  }

  // ---------------------------------------------------------------------------
  // What each call does to the table
  // ---------------------------------------------------------------------------

  /** The active modulators, their tick order, and the outputs recorded by each tick so far. */
  datatype Table<M, O> = Table(mods: map<string, M>, order: seq<string>, ticks: seq<seq<Record<O>>>)

  /** The calls on the engine. */
  datatype Call<M, D, V> =
    | Start(id: string, mod: M)
    | Stop(id: string)
    | Update(id: string, key: string, value: V)
    | Tick(beat: D, rate: V)

  function Flatten<T>(s: seq<seq<T>>): seq<T> { if s == [] then [] else Flatten(s[..|s| - 1]) + s[|s| - 1] }

  /** last_outputs_. */
  function Outputs<M, O>(t: Table<M, O>): map<string, O> { After(map[], Flatten(t.ticks)) }

  /** The order lists each active id once. */
  ghost predicate Wf<M, O>(t: Table<M, O>) { NoDup(t.order) && forall id :: id in t.order <==> id in t.mods }

  datatype Progress<M, O> = Progress(mods: map<string, M>, calls: seq<Record<O>>)

  /** The first `n` turns of a tick. */
  function RunTo<M, D, V, O>(b: Behaviour<M, D, V, O>, t: Table<M, O>, beat: D, rate: V, n: nat): Progress<M, O>
    requires n <= |t.order|
  {
    if n == 0 then Progress(t.mods, []) else
    var p, id := RunTo(b, t, beat, rate, n - 1), t.order[n - 1];
    if id !in p.mods then p else
    var r := (b.tick)(p.mods[id], beat, rate, After(Outputs(t), p.calls));
    Progress(p.mods[id := r.0], p.calls + [Record(id, r.1)])
  }

  function Do<M, D, V, O>(b: Behaviour<M, D, V, O>, t: Table<M, O>, c: Call<M, D, V>): Table<M, O> {
    match c
    case Start(id, mod) => t.(mods := t.mods[id := mod], order := if id in t.mods then t.order else t.order + [id])
    case Stop(id) => t.(mods := t.mods - {id}, order := Without(t.order, id))
    case Update(id, key, value) =>
      if id in t.mods then t.(mods := t.mods[id := (b.update)(t.mods[id], key, value)]) else t
    case Tick(beat, rate) =>
      var p := RunTo(b, t, beat, rate, |t.order|);
      t.(mods := p.mods, ticks := t.ticks + [p.calls])
  }

  /**
   Modulator `i` ran from its own state before the tick, on the outputs recorded before and those of the
   modulators ahead.
   */
  ghost predicate RanAt<M, D, V, O>(
    b: Behaviour<M, D, V, O>, t: Table<M, O>, outputs: map<string, O>, beat: D, rate: V, p: Progress<M, O>, i: nat)
    requires i < |t.order| && i < |p.calls|
  {
    var id := t.order[i];
    && id in t.mods && id in p.mods && p.calls[i].id == id
    && (p.mods[id], p.calls[i].out) == (b.tick)(t.mods[id], beat, rate, After(outputs, p.calls[..i]))
  }

  /** The first `n` modulators have run, and the others are as they were. */
  ghost predicate RanTo<M, D, V, O>(
    b: Behaviour<M, D, V, O>, t: Table<M, O>, outputs: map<string, O>, beat: D, rate: V, p: Progress<M, O>, n: nat)
    requires n <= |t.order|
  {
    && |p.calls| == n && p.mods.Keys == t.mods.Keys
    && (forall i :: n <= i < |t.order| && t.order[i] in t.mods ==> p.mods[t.order[i]] == t.mods[t.order[i]])
    && forall i :: 0 <= i < n ==> RanAt(b, t, outputs, beat, rate, p, i)
  }

  lemma {:induction false} RanNext<M, D, V, O>(
    b: Behaviour<M, D, V, O>, t: Table<M, O>, outputs: map<string, O>, beat: D, rate: V, p: Progress<M, O>, n: nat,
    q: Progress<M, O>)
    requires Wf(t) && n < |t.order| && RanTo(b, t, outputs, beat, rate, p, n) && t.order[n] in p.mods
    requires var id := t.order[n];
             var r := (b.tick)(p.mods[id], beat, rate, After(outputs, p.calls));
             q == Progress(p.mods[id := r.0], p.calls + [Record(id, r.1)])
    ensures RanTo(b, t, outputs, beat, rate, q, n + 1)
  {
    forall i | 0 <= i <= n ensures RanAt(b, t, outputs, beat, rate, q, i) {
      assert q.calls[..i] == p.calls[..i];
      if i < n {
        assert RanAt(b, t, outputs, beat, rate, p, i);
      } else {
        assert p.calls[..n] == p.calls;
      }
    }
  }

  lemma {:induction false} RunToRan<M, D, V, O>(b: Behaviour<M, D, V, O>, t: Table<M, O>, beat: D, rate: V, n: nat)
    requires Wf(t) && n <= |t.order|
    ensures RanTo(b, t, Outputs(t), beat, rate, RunTo(b, t, beat, rate, n), n)
  {
    if n > 0 {
      RunToRan(b, t, beat, rate, n - 1);
      assert t.order[n - 1] in t.order;
      RanNext(b, t, Outputs(t), beat, rate, RunTo(b, t, beat, rate, n - 1), n - 1, RunTo(b, t, beat, rate, n));
    }
  }

  lemma {:induction false} DoKeepsWf<M, D, V, O>(b: Behaviour<M, D, V, O>, t: Table<M, O>, c: Call<M, D, V>)
    requires Wf(t)
    ensures Wf(Do(b, t, c))
  {
    match c {
      case Start(id, mod) =>
      case Stop(id) => WithoutIsRemoval(t.order, id);
      case Update(id, key, value) =>
      case Tick(beat, rate) => RunToRan(b, t, beat, rate, |t.order|);
    }
  }

  // ---------------------------------------------------------------------------
  // The engine object
  // ---------------------------------------------------------------------------

  class Engine<!M, !D, !V, !O> {
    const behaviour: Behaviour<M, D, V, O>
    var mods: map<string, M>
    var order: seq<string>
    var lastOutputs: map<string, O>
    ghost var ticks: seq<seq<Record<O>>>   // what each tick so far recorded

    ghost function State(): Table<M, O>
      reads this
    {
      Table(mods, order, ticks)
    }

    ghost predicate Valid()
      reads this
    {
      Wf(State()) && lastOutputs == Outputs(State())
    }

    constructor (behaviour: Behaviour<M, D, V, O>)
      ensures Valid() && this.behaviour == behaviour && State() == Table(map[], [], [])
    {
      this.behaviour := behaviour;
      mods, order, lastOutputs, ticks := map[], [], map[], [];
    }

    /** A new id goes last in the order; a known id keeps its place and its recorded output. */
    method Start(id: string, mod: M)
      requires Valid()
      modifies this`mods, this`order
      ensures Valid() && State() == Do(behaviour, old(State()), Call.Start(id, mod))
      ensures mods == old(mods)[id := mod] && order == if id in old(mods) then old(order) else old(order) + [id]
    {
      if id !in mods {
        order := order + [id];
      }
      mods := mods[id := mod];
    }

    /** Removes the modulator, keeps everyone else's order, and leaves what it recorded in place. */
    method Stop(id: string)
      requires Valid()
      modifies this`mods, this`order
      ensures Valid() && State() == Do(behaviour, old(State()), Call.Stop(id)) && mods == old(mods) - {id}
      ensures id !in old(mods) ==> order == old(order)
      ensures forall i :: 0 <= i < |old(order)| && old(order)[i] == id ==>
                order == old(order)[..i] + old(order)[i + 1..]
    {
      WithoutIsRemoval(order, id);
      if id !in mods {
        WithoutAbsent(order, id);
      }
      forall i | 0 <= i < |order| && order[i] == id ensures Without(order, id) == order[..i] + order[i + 1..] {
        WithoutAt(order, id, i);
      }
      mods := mods - {id};
      order := Without(order, id);
    }

    method UpdateParam(id: string, key: string, value: V)
      requires Valid()
      modifies this`mods
      ensures Valid() && State() == Do(behaviour, old(State()), Update(id, key, value))
      ensures mods == if id in old(mods) then old(mods)[id := (behaviour.update)(old(mods)[id], key, value)]
                      else old(mods)
    {
      if id in mods {
        mods := mods[id := (behaviour.update)(mods[id], key, value)];
      }
    }

    /** Ticks every modulator once, in order.  `calls` are the callbacks made. */
    method Tick(beat: D, rate: V) returns (calls: seq<Record<O>>)
      requires Valid()
      modifies this`mods, this`lastOutputs, this`ticks
      ensures Valid() && State() == Do(behaviour, old(State()), Call.Tick(beat, rate))
      ensures RanTo(behaviour, old(State()), old(lastOutputs), beat, rate, Progress(mods, calls), |order|)
    {
      ghost var t := State();
      DoKeepsWf(behaviour, t, Call.Tick(beat, rate));
      calls := RunAll(beat, rate);
      RunToRan(behaviour, t, beat, rate, |order|);
      FlattenMore(ticks, calls);
      AfterConcat(map[], Flatten(ticks), calls);
      ticks := ticks + [calls];
    }

    /** The loop of the tick. */
    method RunAll(beat: D, rate: V) returns (calls: seq<Record<O>>)
      requires Valid()
      modifies this`mods, this`lastOutputs
      ensures Progress(mods, calls) == RunTo(behaviour, old(State()), beat, rate, |order|)
      ensures lastOutputs == After(old(lastOutputs), calls)
    {
      calls := [];
      ghost var t := State();
      var i := 0;
      while i < |order|
        invariant 0 <= i <= |order| && Progress(mods, calls) == RunTo(behaviour, t, beat, rate, i)
        invariant lastOutputs == After(Outputs(t), calls)
      {
        var id := order[i];
        if id in mods {
          var r := (behaviour.tick)(mods[id], beat, rate, lastOutputs);
          AfterOne(Outputs(t), calls, Record(id, r.1));
          mods := mods[id := r.0];
          lastOutputs := lastOutputs[id := r.1];
          calls := calls + [Record(id, r.1)];
        }
        i := i + 1;
      }
    }

    /** Over any history of calls, the answer is the most recent output ever recorded under the id. */
    method LastOutput(id: string) returns (r: Option<O>)
      requires Valid()
      ensures r == Latest(Flatten(ticks), id)
    {
      r := Lookup(lastOutputs, id);
      AfterAgrees(Flatten(ticks), id);
    }

    method Size() returns (n: nat)
      requires Valid()
      ensures n == |mods| == |order|
    {
      n := |mods|;
      OrderCount(order, mods.Keys);
    }
  }

  lemma {:induction false} FlattenMore<T>(s: seq<seq<T>>, x: seq<T>)
    ensures Flatten(s + [x]) == Flatten(s) + x
  {
    assert (s + [x])[..|s|] == s;
  }

  lemma {:induction false} OrderCount(s: seq<string>, keys: set<string>)
    requires NoDup(s) && forall k :: k in s <==> k in keys
    ensures |s| == |keys|
  {
    if s == [] {
      assert keys == {};
    } else {
      var x := s[|s| - 1];
      assert forall k :: k in s <==> k == x || k in s[..|s| - 1];
      OrderCount(s[..|s| - 1], keys - {x});
      assert keys == (keys - {x}) + {x};
    }
  }
}
