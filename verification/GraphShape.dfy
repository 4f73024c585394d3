/**
 The shape of a compiled node array (src/graph_modulator.cpp, parse_node): inputs point strictly
 backwards and stay inside the block of the expression, and no node feeds two slots.
 */
module GraphShape {
  import opened ControlGraph
  import opened GraphCompiler

  /** Every input of the block at `base` is unused or points to an earlier node of the same block. */
  ghost predicate Backward<F>(ns: seq<Node<F>>, base: nat) {
    forall i, s :: 0 <= i < |ns| && 0 <= s < |ns[i].inputs| ==>
      ns[i].inputs[s] == -1 || base <= ns[i].inputs[s] < base + i
  }

  /** No node is an input of two slots. */
  ghost predicate SingleParent<F>(ns: seq<Node<F>>) {
    forall i, s, j, t ::
      (0 <= i < |ns| && 0 <= s < |ns[i].inputs| && 0 <= j < |ns| && 0 <= t < |ns[j].inputs| &&
       ns[i].inputs[s] == ns[j].inputs[t] != -1) ==> i == j && s == t
  }

  /** The indices are distinct nodes of the block, none of which feeds another node of the block. */
  ghost predicate Roots<F>(indices: seq<int>, ns: seq<Node<F>>, base: nat) {
    && (forall k :: 0 <= k < |indices| ==> indices[k] == -1 || base <= indices[k] < base + |ns|)
    && (forall k, l :: 0 <= k < l < |indices| && indices[k] == indices[l] ==> indices[k] == -1)
    && (forall k, i, s ::
          (0 <= k < |indices| && 0 <= i < |ns| && 0 <= s < |ns[i].inputs| && ns[i].inputs[s] == indices[k]) ==>
          indices[k] == -1)
  }

  /** A compiled block is a tree in topological order. */
  lemma {:induction false} BlockShape<D, F>(sem: Sem<D, F>, v: Edn<D>, base: nat, h: seq<Input<D, F>>)
    ensures Backward(Image(sem, v, base, h), base) && SingleParent(Image(sem, v, base, h))
    decreases v
  {
    match ViewOf(sem, v)
    case Literal(_) =>
    case Bad =>
    case Apply(op, specs, args) =>
      ArgsShape(sem, specs, args, base, h);
      var s := State(sem, v, h);
      AddParent(ArgsImage(sem, specs, args, base, h), Node(op, ArgIndices(sem, specs, args, base), s.0, s.1), base);
  }

  /** So are the blocks of an operator's arguments together, and the operator reads their roots. */
  lemma {:induction false} ArgsShape<D, F>(
    sem: Sem<D, F>, specs: List<ArgSpec>, args: List<Edn<D>>, base: nat, h: seq<Input<D, F>>)
    ensures var ns := ArgsImage(sem, specs, args, base, h);
            Backward(ns, base) && SingleParent(ns) && Roots(ArgIndices(sem, specs, args, base), ns, base)
    decreases args, specs
  {
    if specs.Cons? {
      var size := FirstSize(sem, specs.head, args);
      var block := FirstImage(sem, specs.head, args, base, h);
      var rest := ArgsImage(sem, specs.tail, Rest(args), base + size, h);
      var indices := ArgIndices(sem, specs.tail, Rest(args), base + size);
      assert ArgsImage(sem, specs, args, base, h) == block + rest;
      assert ArgIndices(sem, specs, args, base) == [Root(base, size)] + indices;
      if args.Cons? {
        BlockShape(sem, args.head, base, h);
      }
      assert Backward(block, base) && SingleParent(block);
      ArgsShape(sem, specs.tail, Rest(args), base + size, h);
      JoinBlocks(block, rest, indices, base);
    }
  }

  lemma {:induction false} AddParent<F>(ns: seq<Node<F>>, top: Node<F>, base: nat)
    requires Backward(ns, base) && SingleParent(ns) && Roots(top.inputs, ns, base)
    ensures Backward(ns + [top], base) && SingleParent(ns + [top])
  {
  }

  lemma {:induction false} JoinBackward<F>(block: seq<Node<F>>, rest: seq<Node<F>>, base: nat)
    requires Backward(block, base) && Backward(rest, base + |block|)
    ensures Backward(block + rest, base)
  {
  }

  lemma {:induction false} JoinBlocks<F>(block: seq<Node<F>>, rest: seq<Node<F>>, indices: seq<int>, base: nat)
    requires Backward(block, base) && SingleParent(block)
    requires Backward(rest, base + |block|) && SingleParent(rest) && Roots(indices, rest, base + |block|)
    ensures Backward(block + rest, base) && SingleParent(block + rest)
    ensures Roots([Root(base, |block|)] + indices, block + rest, base)
  {
    JoinBackward(block, rest, base);
  }
}
