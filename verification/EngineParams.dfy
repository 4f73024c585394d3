/**
 Parameters of running modulators (src/modulator_engine.cpp, update_param; src/graph_modulator.cpp, update): a
 parameter set on a control graph inside the engine is what the graph reads from the next tick on, until it is set
 again or the modulator is stopped or replaced.
 */
module EngineParams {
  import opened Basics
  import opened ControlGraph
  import G = GraphRuns
  import opened GraphMeaning
  import opened ModulatorEngine
  import opened EngineRuns
  import opened EngineGraphs

  /** [:param :key] */
  function ParamExpr<D>(key: string): Edn<D> { Form("param", Cons(Keyword(key), Nil)) }

  /** The call neither replaces nor stops the modulator, nor sets this parameter of it. */
  predicate Spares<M, D, V>(c: Call<M, D, V>, id: string, key: string) {
    match c
    case Start(x, _) => x != id
    case Stop(x) => x != id
    case Update(x, k, _) => x != id || k != key
    case Tick(_, _) => true
  }

  ghost predicate AllSpare<M, D, V>(calls: seq<Call<M, D, V>>, id: string, key: string) {
    forall k :: 0 <= k < |calls| ==> Spares(calls[k], id, key)
  }

  /** The modulator is active, its cv reads the parameter, and the parameter has this value. */
  ghost predicate Reads<D, F>(
    t: Table<Source<D, F>, ModOutput<F>>, id: string, key: string, value: F)
  {
    && id in t.mods && t.mods[id].exprs.cv == ParamExpr(key)
    && key in t.mods[id].params && t.mods[id].params[key] == value
  }

  /** A tick moves only the histories. */
  lemma {:induction false} TickKeepsParams<D, F>(
    sem: Sem<D, F>, t: Table<Source<D, F>, ModOutput<F>>, beat: D, rate: F, n: nat, id: string)
    requires n <= |t.order| && id in t.mods
    ensures var p := RunTo(Evaluated(sem), t, beat, rate, n);
            id in p.mods && p.mods[id].exprs == t.mods[id].exprs && p.mods[id].params == t.mods[id].params
  {
    if n > 0 {
      TickKeepsParams(sem, t, beat, rate, n - 1, id);
    }
  }

  lemma {:induction false} SparedStill<D, F>(
    sem: Sem<D, F>, t: Table<Source<D, F>, ModOutput<F>>, c: Call<Source<D, F>, D, F>,
    id: string, key: string, value: F)
    requires Reads(t, id, key, value) && Spares(c, id, key)
    ensures Reads(Do(Evaluated(sem), t, c), id, key, value)
  {
    if c.Tick? {
      TickKeepsParams(sem, t, c.beat, c.rate, |t.order|, id);
    }
  }

  lemma {:induction false} ReadsOn<D, F>(
    sem: Sem<D, F>, run: seq<Call<Source<D, F>, D, F>>, rest: seq<Call<Source<D, F>, D, F>>,
    id: string, key: string, value: F)
    requires Reads(Exec(Evaluated(sem), run), id, key, value) && AllSpare(rest, id, key)
    ensures Reads(Exec(Evaluated(sem), run + rest), id, key, value)
    decreases |rest|
  {
    if rest == [] {
      assert run + rest == run;
    } else {
      var n := |rest| - 1;
      ReadsOn(sem, run, rest[..n], id, key, value);
      assert run + rest == run + rest[..n] + [rest[n]];
      ExecOne<Source<D, F>, D, F, ModOutput<F>>(Evaluated(sem), run + rest[..n], rest[n]);
      SparedStill(sem, Exec(Evaluated(sem), run + rest[..n]), rest[n], id, key, value);
    }
  }

  /** What an active modulator whose cv reads the parameter records on a tick. */
  lemma {:induction false} RecordsParameter<D, F>(
    ops: Ops<D, F>, t: Table<Source<D, F>, ModOutput<F>>, beat: D, rate: F, i: nat, key: string, value: F)
    requires Wf(t) && i < |t.order| && Reads(t, t.order[i], key, value)
    ensures var calls := RunTo(Evaluated(SemOf(ops)), t, beat, rate, |t.order|).calls;
            i < |calls| && calls[i].id == t.order[i] && calls[i].out.cv == value
  {
    var b := Evaluated(SemOf(ops));
    TickRecordsOrder(b, t, beat, rate, |t.order|);
    SeenByTurn(b, t, beat, rate, i);
    var m, outs := t.mods[t.order[i]], Seen(b, t, beat, rate, i);
    Parameter(ops, key, Nil, m.h + [G.InputOf(SemOf(ops), m.params, beat, rate, Some(outs))]);
  }

  /** The last tick recorded this cv under `id`. */
  ghost predicate RecordedLast<F>(ticks: seq<seq<Record<ModOutput<F>>>>, id: string, cv: F) {
    && ticks != []
    && var last := ticks[|ticks| - 1];
       exists i :: 0 <= i < |last| && last[i].id == id && last[i].out.cv == cv
  }

  lemma {:induction false} UpdateReads<D, F>(
    sem: Sem<D, F>, t: Table<Source<D, F>, ModOutput<F>>, id: string, key: string, value: F)
    requires id in t.mods && t.mods[id].exprs.cv == ParamExpr(key)
    ensures Reads(Do(Evaluated(sem), t, Update(id, key, value)), id, key, value)
  {
  }

  lemma {:induction false} TickRecords<D, F>(
    ops: Ops<D, F>, t: Table<Source<D, F>, ModOutput<F>>, beat: D, rate: F, id: string, key: string, value: F)
    requires Wf(t) && Reads(t, id, key, value)
    ensures RecordedLast(Do(Evaluated(SemOf(ops)), t, Tick(beat, rate)).ticks, id, value)
  {
    var i :| 0 <= i < |t.order| && t.order[i] == id;
    RecordsParameter(ops, t, beat, rate, i, key, value);
    var calls := RunTo(Evaluated(SemOf(ops)), t, beat, rate, |t.order|).calls;
    var ticks := Do(Evaluated(SemOf(ops)), t, Tick(beat, rate)).ticks;
    assert ticks == t.ticks + [calls];
    assert ticks[|ticks| - 1] == calls && calls[i].id == id && calls[i].out.cv == value;
  }

  /** The run that sets the parameter, goes on with further calls, and ticks. */
  function SetThenTick<D, F>(
    run: seq<Call<Source<D, F>, D, F>>, id: string, key: string, value: F, rest: seq<Call<Source<D, F>, D, F>>,
    beat: D, rate: F): seq<Call<Source<D, F>, D, F>>
  {
    run + [Update(id, key, value)] + rest + [Tick(beat, rate)]
  }

  lemma {:induction false} HeardByExpressions<D(!new), F(!new)>(
    ops: Ops<D, F>, run: seq<Call<Source<D, F>, D, F>>, id: string, key: string, value: F,
    rest: seq<Call<Source<D, F>, D, F>>, beat: D, rate: F)
    requires var t := Exec(Evaluated(SemOf(ops)), run); id in t.mods && t.mods[id].exprs.cv == ParamExpr(key)
    requires AllSpare(rest, id, key)
    ensures RecordedLast(
              Exec(Evaluated(SemOf(ops)), SetThenTick(run, id, key, value, rest, beat, rate)).ticks, id, value)
  {
    var sem := SemOf(ops);
    var b := Evaluated(sem);
    var told := run + [Update(id, key, value)];
    ExecOne<Source<D, F>, D, F, ModOutput<F>>(b, run, Update(id, key, value));
    UpdateReads(sem, Exec(b, run), id, key, value);
    ReadsOn(sem, told, rest, id, key, value);
    ExecKeepsWf<Source<D, F>, D, F, ModOutput<F>>(b, told + rest);
    ExecOne<Source<D, F>, D, F, ModOutput<F>>(b, told + rest, Tick(beat, rate));
    TickRecords(ops, Exec(b, told + rest), beat, rate, id, key, value);
  }

  /**
   In every run, a modulator whose cv is [:param key] records the value that its parameter was last set to: after
   update_param(id, key, value) and any calls that do not stop, replace or set it again, updates of other ids and keys
   and other ticks among them, the next tick records `value` under `id`.  This is so in the engine of compiled graphs.
   */
  lemma {:induction false} UpdateIsHeard<D(!new), F(!new)>(
    ops: Ops<D, F>, run: seq<Call<Source<D, F>, D, F>>, id: string, key: string, value: F,
    rest: seq<Call<Source<D, F>, D, F>>, beat: D, rate: F)
    requires var t := Exec(Evaluated(SemOf(ops)), run); id in t.mods && t.mods[id].exprs.cv == ParamExpr(key)
    requires AllSpare(rest, id, key)
    ensures var sem := SemOf(ops);
            var calls := ImageRun(MachineOf(sem), SetThenTick(run, id, key, value, rest, beat, rate));
            RecordedLast(Exec(Compiled(sem), calls).ticks, id, value)
  {
    HeardByExpressions(ops, run, id, key, value, rest, beat, rate);
    EngineCorrect(SemOf(ops), SetThenTick(run, id, key, value, rest, beat, rate));
  }
}
