/**
 The program itself (src/graph_modulator.cpp): parse_node appending to a growing node vector, and
 graph_modulator evaluating that vector in place, tick after tick.
 */
module GraphModulator {
  import opened Basics
  import opened ControlGraph
  import opened GraphCompiler
  import opened GraphRuns
  import opened GraphShape

  /** control_graph: the compiled form under construction and in use. */
  class Graph<F> {
    var nodes: seq<Node<F>>
    var outs: seq<int>
    var params: map<string, F>

    constructor (params: map<string, F>)
      ensures nodes == [] && outs == [] && this.params == params
    {
      this.nodes, this.outs, this.params := [], [], params;
    }
  }

  /** parse_node: appends the block of `v` and returns its last index, or -1 exactly when nothing was appended. */
  method ParseNode<D, F>(sem: Sem<D, F>, v: Edn<D>, g: Graph<F>) returns (idx: int)
    modifies g`nodes
    ensures g.nodes == old(g.nodes) + Image(sem, v, |old(g.nodes)|, [])
    ensures idx == Root(|old(g.nodes)|, Size(sem, v))
    ensures idx == -1 <==> g.nodes == old(g.nodes)
    decreases v
  {
    match ViewOf(sem, v) {
      case Literal(x) =>
        g.nodes := g.nodes + [ConstNode(sem, x)];
        idx := |g.nodes| - 1;
      case Bad =>
        idx := -1;
      case Apply(op, specs, args) =>
        var inputs := ParseArgs(sem, specs, args, g);
        g.nodes := g.nodes + [Node(op, inputs, Zero(sem), Zero(sem))];
        idx := |g.nodes| - 1;
    }
  }

  /** The child and child_or_const calls of one operator, in slot order. */
  method ParseArgs<D, F>(
    sem: Sem<D, F>, specs: List<ArgSpec>, args: List<Edn<D>>, g: Graph<F>) returns (inputs: seq<int>)
    modifies g`nodes
    ensures g.nodes == old(g.nodes) + ArgsImage(sem, specs, args, |old(g.nodes)|, [])
    ensures inputs == ArgIndices(sem, specs, args, |old(g.nodes)|)
    decreases args, 1, specs
  {
    if specs.Nil? {
      return [];
    }
    ghost var base := |g.nodes|;
    ghost var block := FirstImage(sem, specs.head, args, base, []);
    ghost var rest := ArgsImage(sem, specs.tail, Rest(args), base + |block|, []);
    assert ArgsImage(sem, specs, args, base, []) == block + rest;
    Regroup(g.nodes, block, rest);
    var first := ParseFirst(sem, specs.head, args, g);
    inputs := ParseArgs(sem, specs.tail, Rest(args), g);
    inputs := [first] + inputs;
  }

  /** One child or child_or_const call. */
  method ParseFirst<D, F>(sem: Sem<D, F>, spec: ArgSpec, args: List<Edn<D>>, g: Graph<F>) returns (first: int)
    modifies g`nodes
    ensures g.nodes == old(g.nodes) + FirstImage(sem, spec, args, |old(g.nodes)|, [])
    ensures first == Root(|old(g.nodes)|, FirstSize(sem, spec, args))
    decreases args, 0
  {
    first := -1;
    if args.Cons? {
      first := ParseNode(sem, args.head, g);
    } else if spec.Default? {
      g.nodes := g.nodes + [ConstNode(sem, (sem.lit)(spec.value))];
      first := |g.nodes| - 1;
    }
  }

  /** parse_control_graph: cv, aux, gate and gate2 in this order; a single expression is the cv output. */
  method ParseControlGraph<D, F>(sem: Sem<D, F>, graph: Edn<D>, params: map<string, F>) returns (g: Graph<F>)
    ensures fresh(g)
    ensures Machine(g.nodes, g.outs, g.params) == Compile(sem, graph, params)
  {
    g := new Graph(params);
    g.outs := ParseArgs(sem, OUTS, OutputExprs(graph).Args(), g);
  }

  /** graph_modulator: a graph, and a value buffer that keeps the previous tick's values until they are overwritten. */
  class Modulator<!D, F> {
    const sem: Sem<D, F>
    const graph: Graph<F>
    var values: seq<F>

    /** Inputs point backwards, so a pass never reads a value of an earlier tick; output indices are in range. */
    ghost predicate Valid()
      reads this, graph
    {
      && |values| == |graph.nodes|
      && Backward(graph.nodes, 0)
      && |graph.outs| == 4
      && forall k :: 0 <= k < 4 ==> graph.outs[k] < |graph.nodes|
    }

    function State(): Machine<F>
      reads this, graph
    {
      Machine(graph.nodes, graph.outs, graph.params)
    }

    constructor (sem: Sem<D, F>, source: Edn<D>, params: map<string, F>)
      ensures Valid() && fresh(graph) && this.sem == sem
      ensures State() == Compile(sem, source, params)
    {
      var g := ParseControlGraph(sem, source, params);
      this.sem, this.graph := sem, g;
      this.values := seq(|g.nodes|, i => Zero(sem));
      ArgsShape(sem, OUTS, OutputExprs(source).Args(), 0, []);
      forall k | 0 <= k < 4 ensures g.outs[k] < |g.nodes| {
        FourArgs(OutputExprs(source), k);
        IndexAt(sem, OUTS, OutputExprs(source).Args(), 0, k);
      }
    }

    /** One forward pass in place: reports the outputs of the pass and leaves every node in its next state. */
    method Tick(beat: D, rate: F, engine: Option<map<string, ModOutput<F>>>) returns (out: ModOutput<F>)
      requires Valid()
      modifies this`values, graph`nodes
      ensures Valid()
      ensures var inp := InputOf(sem, graph.params, beat, rate, engine);
              && values == PassValues(sem, old(graph.nodes), [], inp)
              && graph.nodes == PassNodes(sem, old(graph.nodes), [], inp)
              && out == OutputAt(sem, graph.outs, values)
    {
      var inp := InputOf(sem, graph.params, beat, rate, engine);
      ghost var ns := graph.nodes;
      var i := 0;
      while i < |graph.nodes|
        invariant 0 <= i <= |ns| == |graph.nodes| == |values|
        invariant values[..i] == PassValues(sem, ns[..i], [], inp)
        invariant graph.nodes == PassNodes(sem, ns[..i], [], inp) + ns[i..]
      {
        var n := graph.nodes[i];
        var f := FireNode(sem, n, values, inp);
        PassNext(sem, ns, i, values, inp);
        SetMiddle(PassNodes(sem, ns[..i], [], inp), ns, i, n.(s0 := f.s0, s1 := f.s1));
        SetPrefix(values, i, f.value);
        graph.nodes := graph.nodes[i := n.(s0 := f.s0, s1 := f.s1)];
        values := values[i := f.value];
        i := i + 1;
      }
      assert ns[..i] == ns;
      out := OutputAt(sem, graph.outs, values);
      PassKeepsWiring(sem, ns, [], inp);
    }

    method Update(key: string, value: F)
      requires Valid()
      modifies graph`params
      ensures Valid()
      ensures State() == old(State()).(params := old(graph.params)[key := value])
    {
      graph.params := graph.params[key := value];
    }
  }

  /**
   Reading inputs from the whole buffer, stale values included, agrees with reading them from the values of this
   pass.
   */
  lemma {:induction false} GatherFresh<D, F>(sem: Sem<D, F>, inputs: seq<int>, values: seq<F>, i: nat)
    requires i <= |values|
    requires forall s :: 0 <= s < |inputs| ==> inputs[s] < i
    ensures Gather(sem, inputs, values) == Gather(sem, inputs, values[..i])
  {
    if inputs != [] {
      GatherFresh(sem, inputs[1..], values, i);
    }
  }

  lemma {:induction false} SetMiddle<T>(done: seq<T>, s: seq<T>, i: nat, x: T)
    requires |done| == i < |s|
    ensures (done + s[i..])[i := x] == done + [x] + s[i + 1..]
  {
  }

  lemma {:induction false} SetPrefix<T>(s: seq<T>, i: nat, x: T)
    requires i < |s|
    ensures s[i := x][..i + 1] == s[..i] + [x]
  {
  }

  lemma {:induction false} PassNext<D, F>(sem: Sem<D, F>, ns: seq<Node<F>>, i: nat, values: seq<F>, inp: Input<D, F>)
    requires Backward(ns, 0) && i < |ns| == |values|
    requires values[..i] == PassValues(sem, ns[..i], [], inp)
    ensures var f := FireNode(sem, ns[i], values, inp);
            && PassValues(sem, ns[..i + 1], [], inp) == values[..i] + [f.value]
            && PassNodes(sem, ns[..i + 1], [], inp)
               == PassNodes(sem, ns[..i], [], inp) + [ns[i].(s0 := f.s0, s1 := f.s1)]
  {
    assert ns[..i + 1] == ns[..i] + [ns[i]];
    PassAppend(sem, ns[..i], [ns[i]], [], inp);
    PassOne(sem, ns[i], values[..i], inp);
    GatherFresh(sem, ns[i].inputs, values, i);
  }

  /** A pass changes states only. */
  lemma {:induction false} PassKeepsWiring<D, F>(sem: Sem<D, F>, ns: seq<Node<F>>, vals: seq<F>, inp: Input<D, F>)
    ensures var ns' := PassNodes(sem, ns, vals, inp);
            |ns'| == |ns| && forall i :: 0 <= i < |ns| ==> ns'[i].inputs == ns[i].inputs && ns'[i].op == ns[i].op
    decreases |ns|
  {
    if ns != [] {
      PassKeepsWiring(sem, ns[1..], vals + [FireNode(sem, ns[0], vals, inp).value], inp);
    }
  }
}
