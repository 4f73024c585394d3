/**
 The compiler from control-graph expressions to a flat node array, and the forward
 pass that evaluates it (src/graph_modulator.cpp, parse_node and graph_modulator::tick).

 `Image(sem, v, base, h)` is the block of nodes that expression `v` occupies when it is
 compiled at index `base`, as it stands after the ticks in `h`; with no ticks it is what
 parse_node appends.  The main theorem is that one forward pass turns the image after `h`
 into the image after `h + [input]` and leaves, at the block's last index, the value of `v`.
 */
module GraphCompiler {
  import opened ControlGraph

  // ---------------------------------------------------------------------------
  // Compilation
  // ---------------------------------------------------------------------------

  function Image<D, F>(sem: Sem<D, F>, v: Edn<D>, base: nat, h: seq<Input<D, F>>): (r: seq<Node<F>>)
    ensures |r| == Size(sem, v)
    decreases v
  {
    match ViewOf(sem, v)
    case Literal(x) => [ConstNode(sem, x)]
    case Bad => []
    case Apply(op, specs, args) =>
      var s := State(sem, v, h);
      ArgsImage(sem, specs, args, base, h) + [Node(op, ArgIndices(sem, specs, args, base), s.0, s.1)]
  }

  /** The blocks of the arguments, one after the other. */
  function ArgsImage<D, F>(
    sem: Sem<D, F>, specs: List<ArgSpec>, args: List<Edn<D>>, base: nat, h: seq<Input<D, F>>): (r: seq<Node<F>>)
    ensures |r| == ArgsSize(sem, specs, args)
    decreases args, 1, specs
  {
    if specs.Nil? then []
    else
      FirstImage(sem, specs.head, args, base, h)
      + ArgsImage(sem, specs.tail, Rest(args), base + FirstSize(sem, specs.head, args), h)
  }

  /** The block of the first argument; a missing one compiles to its default constant, or to nothing. */
  function FirstImage<D, F>(
    sem: Sem<D, F>, spec: ArgSpec, args: List<Edn<D>>, base: nat, h: seq<Input<D, F>>): (r: seq<Node<F>>)
    ensures |r| == FirstSize(sem, spec, args)
    decreases args, 0
  {
    if args.Cons? then Image(sem, args.head, base, h)
    else if spec.Default? then [ConstNode(sem, (sem.lit)(spec.value))]
    else []
  }

  /** The number of nodes an expression occupies. */
  function Size<D, F>(sem: Sem<D, F>, v: Edn<D>): nat
    decreases v
  {
    match ViewOf(sem, v)
    case Literal(_) => 1
    case Bad => 0
    case Apply(_, specs, args) => ArgsSize(sem, specs, args) + 1
  }

  function ArgsSize<D, F>(sem: Sem<D, F>, specs: List<ArgSpec>, args: List<Edn<D>>): nat
    decreases args, 1, specs
  {
    if specs.Nil? then 0 else FirstSize(sem, specs.head, args) + ArgsSize(sem, specs.tail, Rest(args))
  }

  function FirstSize<D, F>(sem: Sem<D, F>, spec: ArgSpec, args: List<Edn<D>>): nat
    decreases args, 0
  {
    if args.Cons? then Size(sem, args.head) else if spec.Default? then 1 else 0
  }

  /** The index that compiling a block of `size` nodes at `base` returns. */
  function Root(base: nat, size: nat): int {
    if size == 0 then -1 else base + size - 1
  }

  function ArgIndices<D, F>(sem: Sem<D, F>, specs: List<ArgSpec>, args: List<Edn<D>>, base: nat): (r: seq<int>)
    ensures |r| == Length(specs)
    decreases specs
  {
    if specs.Nil? then []
    else
      var size := FirstSize(sem, specs.head, args);
      [Root(base, size)] + ArgIndices(sem, specs.tail, Rest(args), base + size)
  }

  // ---------------------------------------------------------------------------
  // The forward pass
  // ---------------------------------------------------------------------------

  function ReadValue<D, F>(sem: Sem<D, F>, vals: seq<F>, idx: int): F {
    if 0 <= idx < |vals| then vals[idx] else Zero(sem)
  }

  function Gather<D, F>(sem: Sem<D, F>, inputs: seq<int>, vals: seq<F>): seq<F> {
    if inputs == [] then [] else [ReadValue(sem, vals, inputs[0])] + Gather(sem, inputs[1..], vals)
  }

  function FireNode<D, F>(sem: Sem<D, F>, n: Node<F>, vals: seq<F>, inp: Input<D, F>): Fired<F> {
    FireOp(sem, n.op, n.s0, n.s1, Gather(sem, n.inputs, vals), inp)
  }

  /** The values computed by evaluating `ns` in order after `vals`. */
  function PassValues<D, F>(sem: Sem<D, F>, ns: seq<Node<F>>, vals: seq<F>, inp: Input<D, F>): (r: seq<F>)
    ensures |r| == |vals| + |ns|
    decreases |ns|
  {
    if ns == [] then vals
    else PassValues(sem, ns[1..], vals + [FireNode(sem, ns[0], vals, inp).value], inp)
  }

  /** The nodes after that evaluation. */
  function PassNodes<D, F>(sem: Sem<D, F>, ns: seq<Node<F>>, vals: seq<F>, inp: Input<D, F>): (r: seq<Node<F>>)
    ensures |r| == |ns|
    decreases |ns|
  {
    if ns == [] then []
    else
      var f := FireNode(sem, ns[0], vals, inp);
      [ns[0].(s0 := f.s0, s1 := f.s1)] + PassNodes(sem, ns[1..], vals + [f.value], inp)
  }

  /** Earlier values stay as they are. */
  lemma {:induction false} PassKeeps<D, F>(sem: Sem<D, F>, ns: seq<Node<F>>, vals: seq<F>, inp: Input<D, F>, k: nat)
    requires k < |vals|
    ensures PassValues(sem, ns, vals, inp)[k] == vals[k]
    decreases |ns|
  {
    if ns != [] {
      PassKeeps(sem, ns[1..], vals + [FireNode(sem, ns[0], vals, inp).value], inp, k);
    }
  }

  lemma {:induction false} PassAppend<D, F>(
    sem: Sem<D, F>, a: seq<Node<F>>, b: seq<Node<F>>, vals: seq<F>, inp: Input<D, F>)
    ensures PassValues(sem, a + b, vals, inp) == PassValues(sem, b, PassValues(sem, a, vals, inp), inp)
    ensures PassNodes(sem, a + b, vals, inp)
         == PassNodes(sem, a, vals, inp) + PassNodes(sem, b, PassValues(sem, a, vals, inp), inp)
    decreases |a|
  {
    if a == [] {
      assert a + b == b;
    } else {
      assert (a + b)[0] == a[0] && (a + b)[1..] == a[1..] + b;
      var x := FireNode(sem, a[0], vals, inp).value;
      PassAppend(sem, a[1..], b, vals + [x], inp);
    }
  }

  lemma {:induction false} PassOne<D, F>(sem: Sem<D, F>, n: Node<F>, vals: seq<F>, inp: Input<D, F>)
    ensures var f := FireNode(sem, n, vals, inp);
            && PassValues(sem, [n], vals, inp) == vals + [f.value]
            && PassNodes(sem, [n], vals, inp) == [n.(s0 := f.s0, s1 := f.s1)]
  {
    var f := FireNode(sem, n, vals, inp);
    assert PassValues(sem, [n][1..], vals + [f.value], inp) == vals + [f.value];
    assert PassNodes(sem, [n][1..], vals + [f.value], inp) == [];
  }

  /** Evaluating `block` and then `rest` leaves every value of `block` readable. */
  lemma {:induction false} Link<D, F>(sem: Sem<D, F>, block: seq<Node<F>>, rest: seq<Node<F>>, vals: seq<F>,
                   root: int, indices: seq<int>, inp: Input<D, F>)
    requires root < |vals| + |block|
    ensures var mid := PassValues(sem, block, vals, inp);
            && PassNodes(sem, block + rest, vals, inp)
               == PassNodes(sem, block, vals, inp) + PassNodes(sem, rest, mid, inp)
            && Gather(sem, [root] + indices, PassValues(sem, block + rest, vals, inp))
               == [ReadValue(sem, mid, root)] + Gather(sem, indices, PassValues(sem, rest, mid, inp))
  {
    PassAppend(sem, block, rest, vals, inp);
    if root >= 0 {
      PassKeeps(sem, rest, PassValues(sem, block, vals, inp), inp, root);
    }
    assert ([root] + indices)[1..] == indices;
  }

  // ---------------------------------------------------------------------------
  // Correctness of one pass over one block
  // ---------------------------------------------------------------------------

  /** One pass over the block of `v` computes `v` and advances every state in the block by one tick. */
  lemma {:induction false} BlockCorrect<D, F>(
    sem: Sem<D, F>, v: Edn<D>, vals: seq<F>, h: seq<Input<D, F>>, inp: Input<D, F>)
    ensures var ns := Image(sem, v, |vals|, h);
            && PassNodes(sem, ns, vals, inp) == Image(sem, v, |vals|, h + [inp])
            && ReadValue(sem, PassValues(sem, ns, vals, inp), Root(|vals|, |ns|)) == Value(sem, v, h + [inp])
    decreases v
  {
    match ViewOf(sem, v)
    case Bad =>
    case Literal(x) => PassOne(sem, ConstNode(sem, x), vals, inp);
    case Apply(op, specs, args) =>
      ArgsCorrect(sem, specs, args, vals, h, inp);
      var kids := ArgsImage(sem, specs, args, |vals|, h);
      var s := State(sem, v, h);
      var top := Node(op, ArgIndices(sem, specs, args, |vals|), s.0, s.1);
      PassAppend(sem, kids, [top], vals, inp);
      PassOne(sem, top, PassValues(sem, kids, vals, inp), inp);
      assert (h + [inp])[..|h + [inp]| - 1] == h;
  }

  /** The same for the arguments of an operator: afterwards each input slot reads its argument's value. */
  lemma {:induction false} ArgsCorrect<D, F>(
    sem: Sem<D, F>, specs: List<ArgSpec>, args: List<Edn<D>>, vals: seq<F>, h: seq<Input<D, F>>, inp: Input<D, F>)
    ensures var ns := ArgsImage(sem, specs, args, |vals|, h);
            && PassNodes(sem, ns, vals, inp) == ArgsImage(sem, specs, args, |vals|, h + [inp])
            && Gather(sem, ArgIndices(sem, specs, args, |vals|), PassValues(sem, ns, vals, inp))
               == ArgValues(sem, specs, args, h + [inp])
    decreases args, 1, specs
  {
    if specs.Cons? {
      var block := FirstImage(sem, specs.head, args, |vals|, h);
      var block' := FirstImage(sem, specs.head, args, |vals|, h + [inp]);
      var mid := PassValues(sem, block, vals, inp);
      var rest := ArgsImage(sem, specs.tail, Rest(args), |mid|, h);
      var rest' := ArgsImage(sem, specs.tail, Rest(args), |mid|, h + [inp]);
      var indices := ArgIndices(sem, specs.tail, Rest(args), |mid|);
      assert ArgsImage(sem, specs, args, |vals|, h) == block + rest;
      assert ArgsImage(sem, specs, args, |vals|, h + [inp]) == block' + rest';
      assert ArgIndices(sem, specs, args, |vals|) == [Root(|vals|, |block|)] + indices;
      FirstCorrect(sem, specs.head, args, vals, h, inp);
      ArgsCorrect(sem, specs.tail, Rest(args), mid, h, inp);
      Link(sem, block, rest, vals, Root(|vals|, |block|), indices, inp);
    }
  }

  lemma {:induction false} FirstCorrect<D, F>(
    sem: Sem<D, F>, spec: ArgSpec, args: List<Edn<D>>, vals: seq<F>, h: seq<Input<D, F>>, inp: Input<D, F>)
    ensures var ns := FirstImage(sem, spec, args, |vals|, h);
            && PassNodes(sem, ns, vals, inp) == FirstImage(sem, spec, args, |vals|, h + [inp])
            && ReadValue(sem, PassValues(sem, ns, vals, inp), Root(|vals|, |ns|))
               == FirstValue(sem, spec, args, h + [inp])
    decreases args, 0
  {
    if args.Cons? {
      BlockCorrect(sem, args.head, vals, h, inp);
    } else if spec.Default? {
      PassOne(sem, ConstNode(sem, (sem.lit)(spec.value)), vals, inp);
    }
  }
}
