/**
 Which expression drives which output of a graph_modulator (src/graph_modulator.cpp, parse_control_graph and tick), and
 what its expressions see: stated on the entries of the graph and the fields that a run reports.
 */
module GraphOutputs {
  import opened Basics
  import opened ControlGraph
  import opened GraphRuns
  import opened GraphMeaning

  /** What the ticks of a run read, in order: the parameters as updated so far, the beat, and the time step. */
  function Inputs<D, F>(ops: Ops<D, F>, params: map<string, F>, evs: seq<Event<D, F>>): seq<Input<D, F>>
    decreases |evs|
  {
    if evs == [] then [] else
    match evs[0]
    case Update(key, value) => Inputs(ops, params[key := value], evs[1..])
    case Tick(beat, rate, engine) =>
      var dt := if (ops.lt)((ops.lit)(0.0), rate) then (ops.div)((ops.lit)(1.0), rate) else (ops.lit)(0.0);
      [Input(params, beat, dt, engine)] + Inputs(ops, params, evs[1..])
  }

  // ---------------------------------------------------------------------------
  // Ticks of a run
  // ---------------------------------------------------------------------------

  lemma {:induction false} RefRunAt<D, F>(
    ops: Ops<D, F>, exprs: Exprs<D>, params: map<string, F>, h: seq<Input<D, F>>, evs: seq<Event<D, F>>, t: nat)
    ensures |RefRun(SemOf(ops), exprs, params, h, evs)| == |Inputs(ops, params, evs)|
    ensures t < |Inputs(ops, params, evs)| ==>
              RefRun(SemOf(ops), exprs, params, h, evs)[t]
              == RefOutput(SemOf(ops), exprs, h + Inputs(ops, params, evs)[..t + 1])
    decreases |evs|
  {
    if evs != [] {
      match evs[0]
      case Update(key, value) => RefRunAt(ops, exprs, params[key := value], h, evs[1..], t);
      case Tick(beat, rate, engine) =>
        var inp := InputOf(SemOf(ops), params, beat, rate, engine);
        var rest := Inputs(ops, params, evs[1..]);
        assert Inputs(ops, params, evs) == [inp] + rest;
        RefRunAt(ops, exprs, params, h + [inp], evs[1..], if t == 0 then 0 else t - 1);
        if 0 < t <= |rest| {
          assert h + [inp] + rest[..t] == h + ([inp] + rest)[..t + 1];
        } else if t == 0 {
          assert h + [inp] == h + ([inp] + rest)[..1];
        }
    }
  }

  /** Every tick of the compiled graph reports what the output expressions denote on what has been read so far. */
  lemma {:induction false} RunAt<D, F>(
    ops: Ops<D, F>, graph: Edn<D>, params: map<string, F>, evs: seq<Event<D, F>>, t: nat)
    requires t < |Inputs(ops, params, evs)|
    ensures var run := Run(SemOf(ops), Compile(SemOf(ops), graph, params), evs);
            && |run| == |Inputs(ops, params, evs)|
            && run[t] == RefOutput(SemOf(ops), OutputExprs(graph), Inputs(ops, params, evs)[..t + 1])
  {
    CompilerCorrect(SemOf(ops), graph, params, evs);
    RefRunAt(ops, OutputExprs(graph), params, [], evs, t);
    assert [] + Inputs(ops, params, evs)[..t + 1] == Inputs(ops, params, evs)[..t + 1];
  }

  // ---------------------------------------------------------------------------
  // Outputs by name
  // ---------------------------------------------------------------------------

  predicate IsNamed<D>(entry: (Edn<D>, Edn<D>), name: string) { entry.0.Keyword? && entry.0.name == name }

  /** Entry `i` is the first one under that keyword. */
  ghost predicate FirstNamed<D>(entries: seq<(Edn<D>, Edn<D>)>, name: string, i: nat) {
    i < |entries| && IsNamed(entries[i], name) && forall j :: 0 <= j < i ==> !IsNamed(entries[j], name)
  }

  ghost predicate Unnamed<D>(entries: seq<(Edn<D>, Edn<D>)>, name: string) {
    forall j :: 0 <= j < |entries| ==> !IsNamed(entries[j], name)
  }

  /** Either `v` is the expression under that keyword, or there is none and `v` does not parse. */
  ghost predicate Under<D>(entries: seq<(Edn<D>, Edn<D>)>, name: string, v: Edn<D>) {
    (forall i: nat :: FirstNamed(entries, name, i) ==> v == entries[i].1) && (Unnamed(entries, name) ==> !Parses(v))
  }

  lemma {:induction false} Found<D>(entries: seq<(Edn<D>, Edn<D>)>, name: string)
    ensures Under(entries, name, FindKw(entries, name))
  {
    if entries != [] && !IsNamed(entries[0], name) {
      var rest := entries[1..];
      Found(rest, name);
      forall i: nat | FirstNamed(entries, name, i) ensures FindKw(entries, name) == entries[i].1 {
        assert i > 0 && rest[i - 1] == entries[i];
        assert forall j :: 0 <= j < i - 1 ==> rest[j] == entries[j + 1];
        assert FirstNamed(rest, name, i - 1);
      }
      if Unnamed(entries, name) {
        assert forall j :: 0 <= j < |rest| ==> rest[j] == entries[j + 1];
        assert Unnamed(rest, name);
      }
    }
  }

  /** A level output is what its expression denotes, zero without one. */
  ghost predicate LevelOf<D, F>(
    ops: Ops<D, F>, entries: seq<(Edn<D>, Edn<D>)>, name: string, h: seq<Input<D, F>>, level: F)
    requires |h| > 0
  {
    && (forall i: nat :: FirstNamed(entries, name, i) ==> level == Value(SemOf(ops), entries[i].1, h))
    && (Unnamed(entries, name) ==> level == (ops.lit)(0.0))
  }

  /** A gate output is high when its expression parses and denotes more than one half, and low without one. */
  ghost predicate GateIs<D, F>(
    ops: Ops<D, F>, entries: seq<(Edn<D>, Edn<D>)>, name: string, h: seq<Input<D, F>>, gate: bool)
    requires |h| > 0
  {
    && (forall i: nat :: FirstNamed(entries, name, i) ==>
          (gate <==> Parses(entries[i].1) && (ops.lt)((ops.lit)(0.5), Value(SemOf(ops), entries[i].1, h))))
    && (Unnamed(entries, name) ==> !gate)
  }

  lemma {:induction false} LevelUnder<D, F>(
    ops: Ops<D, F>, entries: seq<(Edn<D>, Edn<D>)>, name: string, h: seq<Input<D, F>>)
    requires |h| > 0
    ensures LevelOf(ops, entries, name, h, Value(SemOf(ops), FindKw(entries, name), h))
  {
    Found(entries, name);
    if !Parses(FindKw(entries, name)) {
      NonsenseIsZero(ops, FindKw(entries, name), h);
    }
  }

  lemma {:induction false} GateUnder<D, F>(
    ops: Ops<D, F>, entries: seq<(Edn<D>, Edn<D>)>, name: string, h: seq<Input<D, F>>)
    requires |h| > 0
    ensures GateIs(ops, entries, name, h, GateOf(SemOf(ops), FindKw(entries, name), h))
  {
    Found(entries, name);
    ParsesExactly(ops, FindKw(entries, name));
  }

  /**
   A map of outputs: in every run, on every tick, the fields cv, aux, gate and gate2 are what the first entries under
   :cv, :aux, :gate and :gate2 denote, and zero or low where there is no such entry.
   */
  lemma {:induction false} OutputsByName<D, F>(
    ops: Ops<D, F>, entries: seq<(Edn<D>, Edn<D>)>, params: map<string, F>, evs: seq<Event<D, F>>, t: nat)
    requires t < |Inputs(ops, params, evs)|
    ensures var run := Run(SemOf(ops), Compile(SemOf(ops), Map(entries), params), evs);
            var h := Inputs(ops, params, evs)[..t + 1];
            && |run| == |Inputs(ops, params, evs)|
            && LevelOf(ops, entries, "cv", h, run[t].cv) && LevelOf(ops, entries, "aux", h, run[t].aux)
            && GateIs(ops, entries, "gate", h, run[t].gate) && GateIs(ops, entries, "gate2", h, run[t].gate2)
            && run[t].outputs == seq(16, i => (ops.lit)(0.0))
  {
    var h := Inputs(ops, params, evs)[..t + 1];
    RunAt(ops, Map(entries), params, evs, t);
    LevelUnder(ops, entries, "cv", h);
    LevelUnder(ops, entries, "aux", h);
    GateUnder(ops, entries, "gate", h);
    GateUnder(ops, entries, "gate2", h);
  }

  /** Anything but a map is the cv output, and the other outputs are zero and low. */
  lemma {:induction false} ExpressionIsCv<D, F>(
    ops: Ops<D, F>, graph: Edn<D>, params: map<string, F>, evs: seq<Event<D, F>>, t: nat)
    requires t < |Inputs(ops, params, evs)| && !graph.Map?
    ensures var run := Run(SemOf(ops), Compile(SemOf(ops), graph, params), evs);
            && |run| == |Inputs(ops, params, evs)|
            && run[t].cv == Value(SemOf(ops), graph, Inputs(ops, params, evs)[..t + 1])
            && run[t].aux == (ops.lit)(0.0) && !run[t].gate && !run[t].gate2
            && run[t].outputs == seq(16, i => (ops.lit)(0.0))
  {
    RunAt(ops, graph, params, evs, t);
    NonsenseIsZero(ops, Other, Inputs(ops, params, evs)[..t + 1]);
  }
}
