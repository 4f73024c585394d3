/**
 Control graphs inside the engine: an engine of compiled graphs that read one another, and themselves, through
 mod-out nodes records what an engine that evaluates the source expressions would.
 */
module EngineGraphs {
  import opened Basics
  import opened ControlGraph
  import opened GraphCompiler
  import G = GraphRuns
  import opened ModulatorEngine
  import opened EngineRuns

  // ---------------------------------------------------------------------------
  // Replacing every modulator by one that behaves the same
  // ---------------------------------------------------------------------------

  /** `g` maps each state of `c` to a state of `b` that behaves the same. */
  ghost predicate Simulates<M(!new), N(!new), D(!new), V(!new), O(!new)>(
    b: Behaviour<M, D, V, O>, c: Behaviour<N, D, V, O>, g: N -> M)
  {
    && (forall n, beat, rate, outs ::
          (b.tick)(g(n), beat, rate, outs) == (g((c.tick)(n, beat, rate, outs).0), (c.tick)(n, beat, rate, outs).1))
    && (forall n, key, value :: (b.update)(g(n), key, value) == g((c.update)(n, key, value)))
  }

  function Image<N, M>(g: N -> M, mods: map<string, N>): map<string, M> { map id | id in mods :: g(mods[id]) }

  function ImageTable<N, M, O>(g: N -> M, t: Table<N, O>): Table<M, O> { Table(Image(g, t.mods), t.order, t.ticks) }

  function ImageCall<N, M, D, V>(g: N -> M, c: Call<N, D, V>): Call<M, D, V> {
    match c
    case Start(id, mod) => Start(id, g(mod))
    case Stop(id) => Stop(id)
    case Update(id, key, value) => Update(id, key, value)
    case Tick(beat, rate) => Tick(beat, rate)
  }

  function ImageRun<N, M, D, V>(g: N -> M, run: seq<Call<N, D, V>>): (r: seq<Call<M, D, V>>)
    ensures |r| == |run|
  {
    seq(|run|, k requires 0 <= k < |run| => ImageCall(g, run[k]))
  }

  lemma {:induction false} ImageRunTo<M(!new), N(!new), D(!new), V(!new), O(!new)>(
    b: Behaviour<M, D, V, O>, c: Behaviour<N, D, V, O>, g: N -> M, t: Table<N, O>, beat: D, rate: V, n: nat)
    requires Simulates(b, c, g) && n <= |t.order|
    ensures var p, q := RunTo(b, ImageTable(g, t), beat, rate, n), RunTo(c, t, beat, rate, n);
            p == Progress(Image(g, q.mods), q.calls)
  {
    if n > 0 {
      ImageRunTo(b, c, g, t, beat, rate, n - 1);
      var q, id := RunTo(c, t, beat, rate, n - 1), t.order[n - 1];
      if id in q.mods {
        var r := (c.tick)(q.mods[id], beat, rate, After(Outputs(t), q.calls));
        assert Image(g, q.mods)[id := g(r.0)] == Image(g, q.mods[id := r.0]);
      }
    }
  }

  lemma {:induction false} ImageDo<M(!new), N(!new), D(!new), V(!new), O(!new)>(
    b: Behaviour<M, D, V, O>, c: Behaviour<N, D, V, O>, g: N -> M, t: Table<N, O>, call: Call<N, D, V>)
    requires Simulates(b, c, g)
    ensures Do(b, ImageTable(g, t), ImageCall(g, call)) == ImageTable(g, Do(c, t, call))
  {
    match call {
      case Start(id, mod) => assert Image(g, t.mods)[id := g(mod)] == Image(g, t.mods[id := mod]);
      case Stop(id) => assert Image(g, t.mods) - {id} == Image(g, t.mods - {id});
      case Update(id, key, value) =>
        if id in t.mods {
          var m := (c.update)(t.mods[id], key, value);
          assert Image(g, t.mods)[id := g(m)] == Image(g, t.mods[id := m]);
        }
      case Tick(beat, rate) => ImageRunTo(b, c, g, t, beat, rate, |t.order|);
    }
  }

  /** Over every run the two engines hold corresponding modulators and have recorded the same outputs. */
  lemma {:induction false} SimulationLifts<M(!new), N(!new), D(!new), V(!new), O(!new)>(
    b: Behaviour<M, D, V, O>, c: Behaviour<N, D, V, O>, g: N -> M, run: seq<Call<N, D, V>>)
    requires Simulates(b, c, g)
    ensures Exec(b, ImageRun(g, run)) == ImageTable(g, Exec(c, run))
  {
    if run == [] {
      assert Image(g, map[]) == map[];
    } else {
      var n := |run| - 1;
      SimulationLifts(b, c, g, run[..n]);
      assert ImageRun(g, run)[..n] == ImageRun(g, run[..n]);
      ImageDo(b, c, g, Exec(c, run[..n]), run[n]);
    }
  }

  // ---------------------------------------------------------------------------
  // Graphs
  // ---------------------------------------------------------------------------

  /** One tick of a machine; a machine always has four output indices. */
  function TickMachine<D, F>(
    sem: Sem<D, F>, m: G.Machine<F>, beat: D, rate: F, outs: map<string, ModOutput<F>>): (G.Machine<F>, ModOutput<F>)
  {
    var inp := G.InputOf(sem, m.params, beat, rate, Some(outs));
    var indices := if |m.outs| == 4 then m.outs else [-1, -1, -1, -1];
    (m.(nodes := PassNodes(sem, m.nodes, [], inp)), G.OutputAt(sem, indices, PassValues(sem, m.nodes, [], inp)))
  }

  /** graph_modulator, wired to the engine it runs in. */
  function Compiled<D, F>(sem: Sem<D, F>): Behaviour<G.Machine<F>, D, F, ModOutput<F>> {
    Behaviour(
      (m: G.Machine<F>, beat, rate, outs) => TickMachine(sem, m, beat, rate, outs),
      (m: G.Machine<F>, key, value) => m.(params := m.params[key := value]))
  }

  /** Output expressions, the current parameters and everything read so far. */
  datatype Source<D, F> = Source(exprs: G.Exprs<D>, params: map<string, F>, h: seq<Input<D, F>>)

  /** The reference: expressions evaluated on the whole history. */
  function Evaluated<D, F>(sem: Sem<D, F>): Behaviour<Source<D, F>, D, F, ModOutput<F>> {
    Behaviour(
      (s: Source<D, F>, beat, rate, outs) =>
        var h := s.h + [G.InputOf(sem, s.params, beat, rate, Some(outs))];
        (s.(h := h), G.RefOutput(sem, s.exprs, h)),
      (s: Source<D, F>, key, value) => s.(params := s.params[key := value]))
  }

  function MachineOf<D, F>(sem: Sem<D, F>): Source<D, F> -> G.Machine<F> {
    (s: Source<D, F>) => G.MachineAfter(sem, s.exprs, s.params, s.h)
  }

  lemma {:induction false} CompiledSimulates<D(!new), F(!new)>(sem: Sem<D, F>)
    ensures Simulates(Compiled(sem), Evaluated(sem), MachineOf(sem))
  {
    forall s: Source<D, F>, beat: D, rate: F, outs: map<string, ModOutput<F>>
      ensures (Compiled(sem).tick)(MachineOf(sem)(s), beat, rate, outs)
           == (MachineOf(sem)((Evaluated(sem).tick)(s, beat, rate, outs).0),
               (Evaluated(sem).tick)(s, beat, rate, outs).1)
    {
      G.TickCorrect(sem, s.exprs, s.h, G.InputOf(sem, s.params, beat, rate, Some(outs)));
    }
  }

  /**
   For every run of starts, stops, updates and ticks, an engine of compiled graphs has recorded exactly the outputs
   that the source expressions denote, mod-out references between graphs and to themselves included.
   */
  lemma {:induction false} EngineCorrect<D(!new), F(!new)>(sem: Sem<D, F>, run: seq<Call<Source<D, F>, D, F>>)
    ensures Exec(Compiled(sem), ImageRun(MachineOf(sem), run)).ticks == Exec(Evaluated(sem), run).ticks
    ensures Exec(Compiled(sem), ImageRun(MachineOf(sem), run)).order == Exec(Evaluated(sem), run).order
  {
    CompiledSimulates(sem);
    SimulationLifts(Compiled(sem), Evaluated(sem), MachineOf(sem), run);
  }

  /** A start in such a run is the start of a compiled graph. */
  lemma {:induction false} StartCompiles<D, F>(sem: Sem<D, F>, id: string, graph: Edn<D>, params: map<string, F>)
    ensures var start: Call<Source<D, F>, D, F> := Start(id, Source(G.OutputExprs(graph), params, []));
            ImageCall(MachineOf(sem), start) == Start(id, G.Compile(sem, graph, params))
  {
  }

  /** [:mod-out :id] */
  function ModOut<D>(id: string): Edn<D> { Vector(Cons(Keyword("mod-out"), Cons(Keyword(id), Nil))) }

  /** A mod-out node reads the cv of the output it can look up, or zero. */
  lemma {:induction false} ModOutReads<D, F>(
    ops: Ops<D, F>, id: string, h: seq<Input<D, F>>, outs: map<string, ModOutput<F>>)
    requires |h| > 0 && h[|h| - 1].engine == Some(outs)
    ensures Value(SemOf(ops), ModOut(id), h) == if id in outs then outs[id].cv else (ops.lit)(0.0)
  {
    var sem := SemOf(ops);
    var args: List<Edn<D>> := Cons(Keyword(id), Nil);
    var op := PrimOf(ops, ModRef, args);
    assert HeadOf(ops, "mod-out", args) == Some(Head(op, Nil));
    assert ViewOf(sem, ModOut(id)) == Apply(op, Nil, args);
    var s := State(sem, ModOut(id), h[..|h| - 1]);
    assert ArgValues(sem, Nil, args, h) == [];
    assert Value(sem, ModOut(id), h) == FireOp(sem, op, s.0, s.1, [], h[|h| - 1]).value;
    var inp, none := h[|h| - 1], (ops.lit)(0.0);
    assert Fire(ops, op, s.0, s.1, [], inp).value == Combine(ops, op, none, none, none, inp);
  }

  lemma {:induction false} SeenByTurn<M, D, V, O>(b: Behaviour<M, D, V, O>, t: Table<M, O>, beat: D, rate: V, i: nat)
    requires Wf(t) && i < |t.order|
    ensures var calls := RunTo(b, t, beat, rate, |t.order|).calls;
            && i < |calls| && t.order[i] in t.mods
            && calls[i].out == (b.tick)(t.mods[t.order[i]], beat, rate, Seen(b, t, beat, rate, i)).1
  {
    var p := RunTo(b, t, beat, rate, |t.order|);
    RunToRan(b, t, beat, rate, |t.order|);
    RunToGrows(b, t, beat, rate, i, |t.order|);
    TickRecordsOrder(b, t, beat, rate, i);
    assert RanAt(b, t, Outputs(t), beat, rate, p, i);
    assert p.calls[..i] == RunTo(b, t, beat, rate, i).calls;
  }

  /**
   Self-reference is one tick of delay: in any run, a modulator whose cv reads its own output and that was active
   in the previous tick puts out the cv that it put out then.
   */
  lemma {:induction false} FeedbackDelay<D(!new), F(!new)>(
    ops: Ops<D, F>, run: seq<Call<Source<D, F>, D, F>>, previous: Call<Source<D, F>, D, F>,
    rest: seq<Call<Source<D, F>, D, F>>, beat: D, rate: F, i: nat, j: nat)
    requires previous.Tick? && NoTick(rest)
    requires var b := Evaluated(SemOf(ops));
             var s, t := Exec(b, run), Exec(b, run + [previous] + rest);
             && i < |t.order| && j < |s.order| && t.order[i] == s.order[j]
             && t.order[i] in t.mods && t.mods[t.order[i]].exprs.cv == ModOut(t.order[i])
    ensures var b := Evaluated(SemOf(ops));
            var s, t := Exec(b, run), Exec(b, run + [previous] + rest);
            var earlier := RunTo(b, s, previous.beat, previous.rate, |s.order|).calls;
            var now := RunTo(b, t, beat, rate, |t.order|).calls;
            i < |now| && j < |earlier| && now[i].out.cv == earlier[j].out.cv
  {
    var b := Evaluated(SemOf(ops));
    var t := Exec(b, run + [previous] + rest);
    var id := t.order[i];
    ExecKeepsWf<Source<D, F>, D, F, ModOutput<F>>(b, run + [previous] + rest);
    assert id !in t.order[..i];
    ReadsPreviousTickExactly(b, run, previous, rest, beat, rate, i, id);
    SeenByTurn(b, t, beat, rate, i);
    var outs, m := Seen(b, t, beat, rate, i), t.mods[id];
    ModOutReads(ops, id, m.h + [G.InputOf(SemOf(ops), m.params, beat, rate, Some(outs))], outs);
  }
}
