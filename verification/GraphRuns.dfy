/**
 Whole runs of a compiled control graph: the machine that a graph_modulator is
 (src/graph_modulator.cpp, parse_control_graph, tick and update), its agreement with the
 reference semantics over every sequence of ticks and updates, and the shape of the compiled
 array.
 */
module GraphRuns {
  import opened Basics
  import opened ControlGraph
  import opened GraphCompiler

  /** A graph_modulator: the node array, the indices of cv, aux, gate and gate2, and the live parameters. */
  datatype Machine<F> = Machine(nodes: seq<Node<F>>, outs: seq<int>, params: map<string, F>)

  datatype Event<D, F> =
    | Tick(beat: D, rate: F, engine: Option<map<string, ModOutput<F>>>)
    | Update(key: string, value: F)

  /** The four outputs are compiled like required arguments, in the order cv, aux, gate, gate2. */
  const OUTS: List<ArgSpec> := Cons(Required, Cons(Required, Cons(Required, Cons(Required, Nil))))

  function FindKw<D>(entries: seq<(Edn<D>, Edn<D>)>, name: string): Edn<D> {
    if entries == [] then Other
    else if entries[0].0.Keyword? && entries[0].0.name == name then entries[0].1
    else FindKw(entries[1..], name)
  }

  /** The expressions of the four outputs. */
  datatype Exprs<D> = Exprs(cv: Edn<D>, aux: Edn<D>, gate: Edn<D>, gate2: Edn<D>) {
    function Args(): List<Edn<D>> { Cons(cv, Cons(aux, Cons(gate, Cons(gate2, Nil)))) }
  }

  /** The output expressions of a graph; a missing output behaves like one that does not parse. */
  function OutputExprs<D>(graph: Edn<D>): Exprs<D> {
    if graph.Map? then
      Exprs(FindKw(graph.entries, "cv"), FindKw(graph.entries, "aux"),
            FindKw(graph.entries, "gate"), FindKw(graph.entries, "gate2"))
    else Exprs(graph, Other, Other, Other)
  }

  /** The machine for output expressions `exprs` after history `h`. */
  function MachineAfter<D, F>(
    sem: Sem<D, F>, exprs: Exprs<D>, params: map<string, F>, h: seq<Input<D, F>>): (m: Machine<F>)
    ensures |m.outs| == 4
  {
    OutsCount();
    Machine(ArgsImage(sem, OUTS, exprs.Args(), 0, h), ArgIndices(sem, OUTS, exprs.Args(), 0), params)
  }

  /** parse_control_graph. */
  function Compile<D, F>(sem: Sem<D, F>, graph: Edn<D>, params: map<string, F>): (m: Machine<F>)
    ensures |m.outs| == 4
  {
    MachineAfter(sem, OutputExprs(graph), params, [])
  }

  function InputOf<D, F>(sem: Sem<D, F>, params: map<string, F>, beat: D, rate: F,
                         engine: Option<map<string, ModOutput<F>>>): Input<D, F>
  {
    Input(params, beat, (sem.dt)(rate), engine)
  }

  function Zeros<D, F>(sem: Sem<D, F>): seq<F> { seq(16, i => Zero(sem)) }

  function GateAt<D, F>(sem: Sem<D, F>, vals: seq<F>, idx: int): bool {
    0 <= idx < |vals| && (sem.high)(vals[idx])
  }

  function OutputAt<D, F>(sem: Sem<D, F>, outs: seq<int>, vals: seq<F>): ModOutput<F>
    requires |outs| == 4
  {
    ModOutput(ReadValue(sem, vals, outs[0]), ReadValue(sem, vals, outs[1]),
              GateAt(sem, vals, outs[2]), GateAt(sem, vals, outs[3]), Zeros(sem))
  }

  /** The outputs reported along a run of the machine. */
  function Run<D, F>(sem: Sem<D, F>, m: Machine<F>, evs: seq<Event<D, F>>): seq<ModOutput<F>>
    requires |m.outs| == 4
    decreases |evs|
  {
    if evs == [] then [] else
    match evs[0]
    case Update(key, value) => Run(sem, m.(params := m.params[key := value]), evs[1..])
    case Tick(beat, rate, engine) =>
      var inp := InputOf(sem, m.params, beat, rate, engine);
      [OutputAt(sem, m.outs, PassValues(sem, m.nodes, [], inp))]
      + Run(sem, m.(nodes := PassNodes(sem, m.nodes, [], inp)), evs[1..])
  }

  // ---------------------------------------------------------------------------
  // Reference
  // ---------------------------------------------------------------------------

  predicate Present<D, F>(sem: Sem<D, F>, v: Edn<D>) { !ViewOf(sem, v).Bad? }

  /** A gate is high when its expression parses and exceeds one half. */
  predicate GateOf<D, F>(sem: Sem<D, F>, v: Edn<D>, h: seq<Input<D, F>>)
    requires |h| > 0
  {
    Present(sem, v) && (sem.high)(Value(sem, v, h))
  }

  function RefOutput<D, F>(sem: Sem<D, F>, exprs: Exprs<D>, h: seq<Input<D, F>>): ModOutput<F>
    requires |h| > 0
  {
    ModOutput(Value(sem, exprs.cv, h), Value(sem, exprs.aux, h),
              GateOf(sem, exprs.gate, h), GateOf(sem, exprs.gate2, h), Zeros(sem))
  }

  /** The outputs the source expressions denote, given the history `h` before the run. */
  function RefRun<D, F>(sem: Sem<D, F>, exprs: Exprs<D>, params: map<string, F>, h: seq<Input<D, F>>,
                        evs: seq<Event<D, F>>): seq<ModOutput<F>>
    decreases |evs|
  {
    if evs == [] then [] else
    match evs[0]
    case Update(key, value) => RefRun(sem, exprs, params[key := value], h, evs[1..])
    case Tick(beat, rate, engine) =>
      var h' := h + [InputOf(sem, params, beat, rate, engine)];
      [RefOutput(sem, exprs, h')] + RefRun(sem, exprs, params, h', evs[1..])
  }

  // ---------------------------------------------------------------------------
  // Compiler correctness over whole runs
  // ---------------------------------------------------------------------------

  /** Compiler correctness: for every graph and every run, the flat machine reports what the expressions denote. */
  lemma {:induction false} CompilerCorrect<D, F>(
    sem: Sem<D, F>, graph: Edn<D>, params: map<string, F>, evs: seq<Event<D, F>>)
    ensures Run(sem, Compile(sem, graph, params), evs) == RefRun(sem, OutputExprs(graph), params, [], evs)
  {
    RunCorrect(sem, OutputExprs(graph), params, [], evs);
  }

  lemma {:induction false} RunCorrect<D, F>(
    sem: Sem<D, F>, exprs: Exprs<D>, params: map<string, F>, h: seq<Input<D, F>>,
                                            evs: seq<Event<D, F>>)
    ensures Run(sem, MachineAfter(sem, exprs, params, h), evs) == RefRun(sem, exprs, params, h, evs)
    decreases |evs|
  {
    if evs != [] {
      match evs[0]
      case Update(key, value) => RunCorrect(sem, exprs, params[key := value], h, evs[1..]);
      case Tick(beat, rate, engine) =>
        var inp := InputOf(sem, params, beat, rate, engine);
        TickCorrect(sem, exprs, h, inp);
        RunCorrect(sem, exprs, params, h + [inp], evs[1..]);
    }
  }

  /** One tick: the outputs read from the array are the reference outputs, and every node moves on by one tick. */
  lemma {:induction false} TickCorrect<D, F>(sem: Sem<D, F>, exprs: Exprs<D>, h: seq<Input<D, F>>, inp: Input<D, F>)
    ensures var ns := ArgsImage(sem, OUTS, exprs.Args(), 0, h);
            && PassNodes(sem, ns, [], inp) == ArgsImage(sem, OUTS, exprs.Args(), 0, h + [inp])
            && OutputAt(sem, ArgIndices(sem, OUTS, exprs.Args(), 0), PassValues(sem, ns, [], inp))
               == RefOutput(sem, exprs, h + [inp])
  {
    ArgsCorrect(sem, OUTS, exprs.Args(), [], h, inp);
    var vals := PassValues(sem, ArgsImage(sem, OUTS, exprs.Args(), 0, h), [], inp);
    var idxs := ArgIndices(sem, OUTS, exprs.Args(), 0);
    forall k | 0 <= k < 4
      ensures ReadValue(sem, vals, idxs[k]) == Value(sem, ExprOf(exprs, k), h + [inp])
      ensures 0 <= idxs[k] < |vals| <==> Present(sem, ExprOf(exprs, k))
    {
      FourArgs(exprs, k);
      GatherAt(sem, idxs, vals, k);
      ArgAt(sem, OUTS, exprs.Args(), h + [inp], k);
      IndexAt(sem, OUTS, exprs.Args(), 0, k);
    }
    assert ExprOf(exprs, 0) == exprs.cv && ExprOf(exprs, 1) == exprs.aux;
    assert ExprOf(exprs, 2) == exprs.gate && ExprOf(exprs, 3) == exprs.gate2;
  }

  function ExprOf<D>(e: Exprs<D>, k: nat): Edn<D>
    requires k < 4
  {
    if k == 0 then e.cv else if k == 1 then e.aux else if k == 2 then e.gate else e.gate2
  }

  lemma {:induction false} OutsCount()
    ensures Length(OUTS) == 4
  {
    assert Length(OUTS.tail.tail) == 2;
  }

  lemma {:induction false} FourArgs<D>(e: Exprs<D>, k: nat)
    requires k < 4
    ensures Length(OUTS) == Length(e.Args()) == 4 && Nth(e.Args(), k) == ExprOf(e, k)
  {
    OutsCount();
    var l := e.Args();
    assert Length(l.tail.tail.tail.tail) == 0;
    assert Length(l.tail.tail.tail) == 1;
    assert Length(l.tail.tail) == 2;
    assert Length(l.tail) == 3;
    assert Nth(l.tail.tail, 0) == e.gate && Nth(l.tail.tail, 1) == e.gate2;
  }

  lemma {:induction false} GatherAt<D, F>(sem: Sem<D, F>, inputs: seq<int>, vals: seq<F>, k: nat)
    requires k < |inputs|
    ensures |Gather(sem, inputs, vals)| == |inputs|
    ensures Gather(sem, inputs, vals)[k] == ReadValue(sem, vals, inputs[k])
  {
    if |inputs| > 1 {
      GatherAt(sem, inputs[1..], vals, if k == 0 then 0 else k - 1);
    }
  }

  lemma {:induction false} ArgAt<D, F>(
    sem: Sem<D, F>, specs: List<ArgSpec>, args: List<Edn<D>>, h: seq<Input<D, F>>, k: nat)
    requires k < Length(specs) && k < Length(args) && |h| > 0
    ensures |ArgValues(sem, specs, args, h)| == Length(specs)
    ensures ArgValues(sem, specs, args, h)[k] == Value(sem, Nth(args, k), h)
    decreases k
  {
    ArgCount(sem, specs, args, h);
    if k > 0 {
      ArgAt(sem, specs.tail, args.tail, h, k - 1);
    }
  }

  /** The index of the k-th argument lies inside the compiled arguments exactly when that argument parses. */
  lemma {:induction false} IndexAt<D, F>(sem: Sem<D, F>, specs: List<ArgSpec>, args: List<Edn<D>>, base: nat, k: nat)
    requires k < Length(specs) && k < Length(args)
    ensures var idx := ArgIndices(sem, specs, args, base)[k];
            if Present(sem, Nth(args, k)) then base <= idx < base + ArgsSize(sem, specs, args) else idx == -1
    decreases k
  {
    var size := FirstSize(sem, specs.head, args);
    if k == 0 {
      SizeZero(sem, args.head);
    } else {
      IndexAt(sem, specs.tail, args.tail, base + size, k - 1);
    }
  }

  lemma {:induction false} SizeZero<D, F>(sem: Sem<D, F>, v: Edn<D>)
    ensures Size(sem, v) == 0 <==> !Present(sem, v)
  {
  }

  lemma {:induction false} ArgCount<D, F>(sem: Sem<D, F>, specs: List<ArgSpec>, args: List<Edn<D>>, h: seq<Input<D, F>>)
    requires |h| > 0
    ensures |ArgValues(sem, specs, args, h)| == Length(specs)
    decreases specs
  {
    if specs.Cons? {
      ArgCount(sem, specs.tail, Rest(args), h);
    }
  }

  /** Changing the other outputs' expressions never alters output `k`, whatever happens in the run. */
  lemma {:induction false} NonInterference<D, F>(sem: Sem<D, F>, g1: Edn<D>, g2: Edn<D>, params: map<string, F>,
                                                 evs: seq<Event<D, F>>, k: nat)
    requires k < 4 && ExprOf(OutputExprs(g1), k) == ExprOf(OutputExprs(g2), k)
    ensures var r1, r2 := Run(sem, Compile(sem, g1, params), evs), Run(sem, Compile(sem, g2, params), evs);
            |r1| == |r2| && forall t :: 0 <= t < |r1| ==> Output(r1[t], k) == Output(r2[t], k)
  {
    CompilerCorrect(sem, g1, params, evs);
    CompilerCorrect(sem, g2, params, evs);
    SameOutput(sem, OutputExprs(g1), OutputExprs(g2), params, [], evs, k);
  }

  datatype Signal<F> = Level(x: F) | Gate(b: bool)

  function Output<F>(out: ModOutput<F>, k: nat): Signal<F>
    requires k < 4
  {
    if k == 0 then Level(out.cv)
    else if k == 1 then Level(out.aux)
    else if k == 2 then Gate(out.gate)
    else Gate(out.gate2)
  }

  lemma {:induction false} SameOutput<D, F>(sem: Sem<D, F>, e1: Exprs<D>, e2: Exprs<D>, params: map<string, F>,
                                            h: seq<Input<D, F>>, evs: seq<Event<D, F>>, k: nat)
    requires k < 4 && ExprOf(e1, k) == ExprOf(e2, k)
    ensures var r1, r2 := RefRun(sem, e1, params, h, evs), RefRun(sem, e2, params, h, evs);
            |r1| == |r2| && forall t :: 0 <= t < |r1| ==> Output(r1[t], k) == Output(r2[t], k)
    decreases |evs|
  {
    if evs != [] {
      match evs[0]
      case Update(key, value) => SameOutput(sem, e1, e2, params[key := value], h, evs[1..], k);
      case Tick(beat, rate, engine) =>
        SameOutput(sem, e1, e2, params, h + [InputOf(sem, params, beat, rate, engine)], evs[1..], k);
    }
  }

  // ---------------------------------------------------------------------------
  // Every node of the array, not only the outputs
  // ---------------------------------------------------------------------------

  /** A path names an occurrence: an argument number, then a path inside that argument. */
  datatype Path = Here(k: nat) | Inside(k: nat, rest: Path)

  predicate ValidPath<D, F>(sem: Sem<D, F>, specs: List<ArgSpec>, args: List<Edn<D>>, path: Path)
    decreases path
  {
    && path.k < Length(specs) && path.k < Length(args)
    && (path.Inside? ==>
          var w := ViewOf(sem, Nth(args, path.k));
          w.Apply? && ValidPath(sem, w.specs, w.args, path.rest))
  }

  function SubAt<D, F>(sem: Sem<D, F>, specs: List<ArgSpec>, args: List<Edn<D>>, path: Path): Edn<D>
    requires ValidPath(sem, specs, args, path)
    decreases path
  {
    var v := Nth(args, path.k);
    if path.Here? then v else var w := ViewOf(sem, v); SubAt(sem, w.specs, w.args, path.rest)
  }

  /** The index at which the block of the occurrence starts. */
  function BaseAt<D, F>(sem: Sem<D, F>, specs: List<ArgSpec>, args: List<Edn<D>>, base: nat, path: Path): nat
    requires ValidPath(sem, specs, args, path)
    decreases path
  {
    var b := ArgBase(sem, specs, args, base, path.k);
    if path.Here? then b else var w := ViewOf(sem, Nth(args, path.k)); BaseAt(sem, w.specs, w.args, b, path.rest)
  }

  function ArgBase<D, F>(sem: Sem<D, F>, specs: List<ArgSpec>, args: List<Edn<D>>, base: nat, k: nat): nat
    requires k < Length(specs) && k < Length(args)
  {
    if k == 0 then base else ArgBase(sem, specs.tail, args.tail, base + FirstSize(sem, specs.head, args), k - 1)
  }

  /** The k-th argument's block lies inside the arguments' image. */
  lemma {:induction false} ArgBlock<D, F>(sem: Sem<D, F>, specs: List<ArgSpec>, args: List<Edn<D>>, base: nat,
                                          h: seq<Input<D, F>>, k: nat)
    returns (pre: seq<Node<F>>, post: seq<Node<F>>)
    requires k < Length(specs) && k < Length(args)
    ensures base + |pre| == ArgBase(sem, specs, args, base, k)
    ensures ArgsImage(sem, specs, args, base, h) == pre + Image(sem, Nth(args, k), base + |pre|, h) + post
    decreases k
  {
    var first := FirstImage(sem, specs.head, args, base, h);
    var next := base + FirstSize(sem, specs.head, args);
    if k == 0 {
      pre, post := [], ArgsImage(sem, specs.tail, Rest(args), next, h);
      assert pre + first + post == first + post;
    } else {
      var mid;
      mid, post := ArgBlock(sem, specs.tail, args.tail, next, h, k - 1);
      pre := first + mid;
      RegroupFour(first, mid, Image(sem, Nth(args, k), base + |pre|, h), post);
    }
  }

  lemma {:induction false} RegroupFour<T>(a: seq<T>, b: seq<T>, c: seq<T>, d: seq<T>)
    ensures a + (b + c + d) == (a + b) + c + d
  {
  }

  /** The block of the occurrence that `path` names lies inside the arguments' image. */
  lemma {:induction false} OccurrenceBlock<D, F>(sem: Sem<D, F>, specs: List<ArgSpec>, args: List<Edn<D>>, base: nat,
                                                 h: seq<Input<D, F>>, path: Path)
    returns (pre: seq<Node<F>>, post: seq<Node<F>>)
    requires ValidPath(sem, specs, args, path)
    ensures base + |pre| == BaseAt(sem, specs, args, base, path)
    ensures ArgsImage(sem, specs, args, base, h)
         == pre + Image(sem, SubAt(sem, specs, args, path), base + |pre|, h) + post
    decreases path
  {
    pre, post := ArgBlock(sem, specs, args, base, h, path.k);
    if path.Inside? {
      var b := base + |pre|;
      var v := Nth(args, path.k);
      var w := ViewOf(sem, v);
      var pre1, post1 := OccurrenceBlock(sem, w.specs, w.args, b, h, path.rest);
      var s := State(sem, v, h);
      var top := [Node(w.op, ArgIndices(sem, w.specs, w.args, b), s.0, s.1)];
      Nest(pre, pre1, Image(sem, SubAt(sem, specs, args, path), b + |pre1|, h), post1, top, post);
      pre, post := pre + pre1, post1 + top + post;
    }
  }

  lemma {:induction false} Nest<T>(a: seq<T>, b: seq<T>, c: seq<T>, d: seq<T>, e: seq<T>, f: seq<T>)
    ensures a + ((b + c + d) + e) + f == (a + b) + c + (d + e + f)
  {
  }

  /** After any history, the value computed at the end of an occurrence's block is the value of that sub-expression. */
  lemma {:induction false} NodeMeaning<D, F>(
    sem: Sem<D, F>, graph: Edn<D>, h: seq<Input<D, F>>, inp: Input<D, F>, path: Path)
    requires ValidPath(sem, OUTS, OutputExprs(graph).Args(), path)
    ensures var exprs := OutputExprs(graph);
            var sub, b := SubAt(sem, OUTS, exprs.Args(), path), BaseAt(sem, OUTS, exprs.Args(), 0, path);
            var vals := PassValues(sem, ArgsImage(sem, OUTS, exprs.Args(), 0, h), [], inp);
            ReadValue(sem, vals, Root(b, Size(sem, sub))) == Value(sem, sub, h + [inp])
  {
    var exprs := OutputExprs(graph);
    var sub, b := SubAt(sem, OUTS, exprs.Args(), path), BaseAt(sem, OUTS, exprs.Args(), 0, path);
    var pre, post := OccurrenceBlock(sem, OUTS, exprs.Args(), 0, h, path);
    PassMiddle(sem, pre, Image(sem, sub, b, h), post, inp, Root(b, Size(sem, sub)));
    BlockCorrect(sem, sub, PassValues(sem, pre, [], inp), h, inp);
  }

  lemma {:induction false} PassMiddle<D, F>(
    sem: Sem<D, F>, before: seq<Node<F>>, block: seq<Node<F>>, after: seq<Node<F>>, inp: Input<D, F>, idx: int)
    requires idx < |before| + |block|
    ensures ReadValue(sem, PassValues(sem, before + block + after, [], inp), idx)
         == ReadValue(sem, PassValues(sem, block, PassValues(sem, before, [], inp), inp), idx)
  {
    PassAppend(sem, before + block, after, [], inp);
    PassAppend(sem, before, block, [], inp);
    if idx >= 0 {
      PassKeeps(sem, after, PassValues(sem, before + block, [], inp), inp, idx);
    }
  }

  /** Two occurrences of the same sub-expression carry the same value on every tick, although each has its own state. */
  lemma {:induction false} EqualSubexpressions<D, F>(
    sem: Sem<D, F>, graph: Edn<D>, h: seq<Input<D, F>>, inp: Input<D, F>, p: Path, q: Path)
    requires ValidPath(sem, OUTS, OutputExprs(graph).Args(), p) && ValidPath(sem, OUTS, OutputExprs(graph).Args(), q)
    requires SubAt(sem, OUTS, OutputExprs(graph).Args(), p) == SubAt(sem, OUTS, OutputExprs(graph).Args(), q)
    ensures var exprs := OutputExprs(graph);
            var size := Size(sem, SubAt(sem, OUTS, exprs.Args(), p));
            var vals := PassValues(sem, ArgsImage(sem, OUTS, exprs.Args(), 0, h), [], inp);
            ReadValue(sem, vals, Root(BaseAt(sem, OUTS, exprs.Args(), 0, p), size))
            == ReadValue(sem, vals, Root(BaseAt(sem, OUTS, exprs.Args(), 0, q), size))
  {
    NodeMeaning(sem, graph, h, inp, p);
    NodeMeaning(sem, graph, h, inp, q);
  }

  // ---------------------------------------------------------------------------
  // Parse errors
  // ---------------------------------------------------------------------------

  /** A graph compiles to no nodes if and only if none of its four outputs is a form that parses at its head. */
  lemma {:induction false} EmptyExactly<D, F>(sem: Sem<D, F>, graph: Edn<D>, params: map<string, F>)
    ensures Compile(sem, graph, params).nodes == []
       <==> forall k :: 0 <= k < 4 ==> !Present(sem, ExprOf(OutputExprs(graph), k))
  {
    var e := OutputExprs(graph);
    FourSizes(sem, e);
    SizeZero(sem, e.cv);
    SizeZero(sem, e.aux);
    SizeZero(sem, e.gate);
    SizeZero(sem, e.gate2);
    assert e.cv == ExprOf(e, 0) && e.aux == ExprOf(e, 1) && e.gate == ExprOf(e, 2) && e.gate2 == ExprOf(e, 3);
  }

  lemma {:induction false} FourSizes<D, F>(sem: Sem<D, F>, e: Exprs<D>)
    ensures ArgsSize(sem, OUTS, e.Args()) == Size(sem, e.cv) + Size(sem, e.aux) + Size(sem, e.gate) + Size(sem, e.gate2)
  {
    var one := Cons(Required, Nil);
    var two := Cons(Required, one);
    var a1 := Cons(e.gate2, Nil);
    var a2 := Cons(e.gate, a1);
    assert ArgsSize(sem, one, a1) == Size(sem, e.gate2) + ArgsSize(sem, Nil, Nil);
    assert ArgsSize(sem, two, a2) == Size(sem, e.gate) + ArgsSize(sem, one, a1);
    assert ArgsSize(sem, Cons(Required, two), Cons(e.aux, a2)) == Size(sem, e.aux) + ArgsSize(sem, two, a2);
  }

  /** A single expression compiles to its own block, and is the cv output. */
  lemma {:induction false} SingleOutput<D, F>(sem: Sem<D, F>, graph: Edn<D>, params: map<string, F>)
    requires !graph.Map?
    ensures var m := Compile(sem, graph, params);
            m.nodes == Image(sem, graph, 0, []) && m.outs == [Root(0, Size(sem, graph)), -1, -1, -1]
  {
    var n := Size(sem, graph);
    var three, a3 := Cons(Required, Cons(Required, Cons(Required, Nil))), Cons(Other, Cons(Other, Cons(Other, Nil)));
    OthersVanish(sem, n);
    assert ArgsImage(sem, OUTS, Cons(graph, a3), 0, []) == Image(sem, graph, 0, []) + ArgsImage(sem, three, a3, n, []);
    assert ArgIndices(sem, OUTS, Cons(graph, a3), 0) == [Root(0, n)] + ArgIndices(sem, three, a3, n);
  }

  lemma {:induction false} OthersVanish<D, F>(sem: Sem<D, F>, n: nat)
    ensures var specs := Cons(Required, Cons(Required, Cons(Required, Nil)));
            var args := Cons(Other, Cons(Other, Cons(Other, Nil)));
            ArgsImage(sem, specs, args, n, []) == [] && ArgIndices(sem, specs, args, n) == [-1, -1, -1]
  {
    var one, a1 := Cons(Required, Nil), Cons(Edn<D>.Other, Nil);
    var two, a2 := Cons(Required, one), Cons(Edn<D>.Other, a1);
    assert FirstImage(sem, Required, a1, n, []) == [] && FirstSize(sem, Required, a1) == 0;
    assert ArgsImage(sem, one, a1, n, []) == [] + ArgsImage(sem, Nil, Nil, n, []);
    assert ArgIndices(sem, one, a1, n) == [-1] + ArgIndices(sem, Nil, Nil, n);
    assert ArgsImage(sem, two, a2, n, []) == [] + ArgsImage(sem, one, a1, n, []);
    assert ArgIndices(sem, two, a2, n) == [-1] + ArgIndices(sem, one, a1, n);
  }

  /** An operator of two required arguments, the first of them bad and the second a number. */
  lemma {:induction false} BadFirstArgument<D, F>(sem: Sem<D, F>, op: Prim<F>, bad: Edn<D>, x: D, inp: Input<D, F>)
    requires ViewOf(sem, bad).Bad?
    ensures var specs, args := Cons(Required, Cons(Required, Nil)), Cons(bad, Cons(Double(x), Nil));
            && ArgsSize(sem, specs, args) == 1 && ArgIndices(sem, specs, args, 0) == [-1, 0]
            && ArgValues(sem, specs, args, [inp]) == [Zero(sem), (sem.ofDouble)(x)]
  {
    var one, last := Cons(Required, Nil), Cons(Double(x), Nil);
    assert ViewOf(sem, Double(x)) == Literal((sem.ofDouble)(x));
    assert Size(sem, Double(x)) == 1 && Value(sem, Double(x), [inp]) == (sem.ofDouble)(x);
    assert Size(sem, bad) == 0 && Value(sem, bad, [inp]) == Zero(sem);
    assert ArgsSize(sem, one, last) == 1 + ArgsSize(sem, Nil, Nil);
    assert ArgIndices(sem, one, last, 0) == [0] + ArgIndices(sem, Nil, Nil, 1);
    assert ArgValues(sem, one, last, [inp]) == [(sem.ofDouble)(x)] + ArgValues(sem, Nil, Nil, [inp]);
  }

  /** [:add [:bogus] x] is not empty: it has a constant and a sum whose first input is -1, and its value is 0 + x. */
  lemma {:induction false} BadArgumentKeepsGraph<D, F>(ops: Ops<D, F>, x: D, params: map<string, F>, inp: Input<D, F>)
    ensures var bad := Vector(Cons(Keyword("bogus"), Nil));
            var graph := Vector(Cons(Keyword("add"), Cons(bad, Cons(Double(x), Nil))));
            var m := Compile(SemOf(ops), graph, params);
            && |m.nodes| == 2 && m.nodes[1].inputs == [-1, 0] && m.outs == [1, -1, -1, -1]
            && Value(SemOf(ops), graph, [inp]) == (ops.add)((ops.lit)(0.0), (ops.ofDouble)(x))
  {
    var sem, bad := SemOf(ops), Vector(Cons(Keyword("bogus"), Nil));
    var args := Cons(bad, Cons(Double(x), Nil));
    var graph := Vector(Cons(Keyword("add"), args));
    var op, specs := PrimOf(ops, Add, args), Cons(Required, Cons(Required, Nil));
    assert HeadOf(ops, "bogus", Nil).None? && ViewOf(sem, bad).Bad?;
    assert HeadOf(ops, "add", args) == Some(Head(op, specs));
    assert ViewOf(sem, graph) == Apply(op, specs, args);
    SingleOutput(sem, graph, params);
    BadFirstArgument(sem, op, bad, x, inp);
    assert Size(sem, graph) == 2;
    var s, ins := State(sem, graph, [inp][..0]), [(ops.lit)(0.0), (ops.ofDouble)(x)];
    assert Value(sem, graph, [inp]) == FireOp(sem, op, s.0, s.1, ins, inp).value;
    assert At(ops, ins, 0) == ins[0] && At(ops, ins, 1) == ins[1];
  }
}
