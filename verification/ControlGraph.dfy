/**
 The language of control graphs (src/graph_modulator.cpp): its EDN surface
 syntax, its operator table, and what one node computes from its inputs.

 Numbers are kept abstract.  `Ops<D, F>` bundles the arithmetic of the host:
 `D` stands for double and `F` for float, and nothing is assumed about any of
 the operators, so every result holds for IEEE arithmetic as well.
 */
module ControlGraph {
  import opened Basics

  datatype List<+T> = Nil | Cons(head: T, tail: List<T>)

  function Length<T>(l: List<T>): nat { if l.Nil? then 0 else 1 + Length(l.tail) }

  function Nth<T>(l: List<T>, k: nat): T
    requires k < Length(l)
  {
    if k == 0 then l.head else Nth(l.tail, k - 1)
  }

  function Rest<T>(l: List<T>): List<T> { if l.Nil? then Nil else l.tail }

  /** An EDN value.  `Other` is any value that no graph construct looks into (strings, nil, sets, ...). */
  datatype Edn<D> =
    | Double(d: D)
    | Int(i: int)
    | Keyword(name: string)
    | Vector(items: List<Edn<D>>)
    | Map(entries: seq<(Edn<D>, Edn<D>)>)
    | Other

  /** Uninterpreted arithmetic; `lit` converts a source literal and `lt`, `le` are the comparisons. */
  datatype Ops<!D, !F> = Ops(
    lit: real -> F,
    ofDouble: D -> F,
    ofInt: int -> F,
    add: (F, F) -> F,
    sub: (F, F) -> F,
    mul: (F, F) -> F,
    div: (F, F) -> F,
    neg: F -> F,
    abs: F -> F,
    fmod: (F, F) -> F,
    floor: F -> F,
    sin: F -> F,
    cos: F -> F,
    lt: (F, F) -> bool,
    le: (F, F) -> bool)

  datatype Kind =
    | ConstVal | ParamRef | ModRef | BeatIn | BeatPhase | Phasor
    | Sin | Cos | Tri | Saw | Square | Scale | Clamp
    | Add | Mul | Neg | AbsVal | Mix | Slew | SampleHold | Threshold | Comparator

  /**
   The fixed part of a cg_node: `arg` is args[0] of a constant, `field` is args[0] of a
   mod_ref, which only ever holds a small integer, and `key` is param_key.
   */
  datatype Prim<F> = Prim(kind: Kind, arg: F, field: int, key: string)

  /** One cg_node.  `inputs` lists the used slots only; an absent slot reads like -1. */
  datatype Node<F> = Node(op: Prim<F>, inputs: seq<int>, s0: F, s1: F)

  /** What a modulator reports on one tick. */
  datatype ModOutput<F> = ModOutput(cv: F, aux: F, gate: bool, gate2: bool, outputs: seq<F>)

  /**
   Everything a tick reads from outside: live parameters, beat, time step and, unless the engine is null, its
   last outputs.
   */
  datatype Input<D, F> = Input(params: map<string, F>, beat: D, dt: F, engine: Option<map<string, ModOutput<F>>>)

  /** How an operator obtains one of its inputs: `child(i)` or `child_or_const(i, def)`. */
  datatype ArgSpec = Required | Default(value: real)

  /** The fixed part of an operator's node and its input slots. */
  datatype Head<F> = Head(op: Prim<F>, specs: List<ArgSpec>)

  /** A literal, an operator applied to argument expressions, or something that does not parse. */
  datatype View<D, F> =
    | Literal(value: F)
    | Apply(op: Prim<F>, specs: List<ArgSpec>, args: List<Edn<D>>)
    | Bad

  function KindOf(op: string): Option<Kind> {
    if op == "const" then Some(ConstVal)
    else if op == "param" then Some(ParamRef)
    else if op == "mod-out" then Some(ModRef)
    else if op == "beat" then Some(BeatIn)
    else if op == "beat-phase" then Some(BeatPhase)
    else if op == "phasor" then Some(Phasor)
    else if op == "sin" then Some(Sin)
    else if op == "cos" then Some(Cos)
    else if op == "tri" then Some(Tri)
    else if op == "saw" then Some(Saw)
    else if op == "square" then Some(Square)
    else if op == "scale" then Some(Scale)
    else if op == "clamp" then Some(Clamp)
    else if op == "add" then Some(Add)
    else if op == "mul" then Some(Mul)
    else if op == "neg" then Some(Neg)
    else if op == "abs" then Some(AbsVal)
    else if op == "mix" then Some(Mix)
    else if op == "slew" then Some(Slew)
    else if op == "sample-hold" then Some(SampleHold)
    else if op == "threshold" then Some(Threshold)
    else if op == "comparator" then Some(Comparator)
    else None
  }

  function Specs(kind: Kind): List<ArgSpec> {
    match kind
    case ConstVal | ParamRef | ModRef | BeatIn => Nil
    case BeatPhase | Phasor => Cons(Default(1.0), Nil)
    case Sin | Cos | Tri | Saw | Neg | AbsVal => Cons(Required, Nil)
    case Square | Threshold => Cons(Required, Cons(Default(0.5), Nil))
    case Scale | Clamp => Cons(Required, Cons(Default(0.0), Cons(Default(1.0), Nil)))
    case Add | Mul | SampleHold | Comparator => Cons(Required, Cons(Required, Nil))
    case Mix => Cons(Required, Cons(Required, Cons(Default(0.5), Nil)))
    case Slew => Cons(Required, Cons(Default(0.01), Cons(Default(0.01), Nil)))
  }

  /** The fixed part of the node that an operator form compiles to; `args` follows the operator. */
  function PrimOf<D, F>(ops: Ops<D, F>, kind: Kind, args: List<Edn<D>>): Prim<F> {
    var arg :=
      if kind.ConstVal? && args.Cons? && args.head.Double? then (ops.ofDouble)(args.head.d) else (ops.lit)(0.0);
    var key := if (kind.ParamRef? || kind.ModRef?) && args.Cons? && args.head.Keyword? then args.head.name else "";
    var field :=
      if kind.ModRef? && Rest(args).Cons? && Rest(args).head.Keyword? then FieldOf(Rest(args).head.name) else 0;
    Prim(kind, arg, field, key)
  }

  function FieldOf(name: string): int {
    if name == "aux" then 1 else if name == "gate" then 2 else if name == "gate2" then 3 else 0
  }

  /** The operator table: what a form starting with keyword `name` compiles to, if anything. */
  function HeadOf<D, F>(ops: Ops<D, F>, name: string, args: List<Edn<D>>): Option<Head<F>> {
    match KindOf(name)
    case None => None
    case Some(kind) => Some(Head(PrimOf(ops, kind, args), Specs(kind)))
  }

  // ---------------------------------------------------------------------------
  // What one node computes
  // ---------------------------------------------------------------------------

  /** The value of a node on one tick and the state it leaves behind. */
  datatype Fired<F> = Fired(value: F, s0: F, s1: F)

  function At<D, F>(ops: Ops<D, F>, ins: seq<F>, slot: nat): F {
    if slot < |ins| then ins[slot] else (ops.lit)(0.0)
  }

  /** std::min, std::max and std::clamp in terms of the comparison. */
  function MinOf<D, F>(ops: Ops<D, F>, a: F, b: F): F { if (ops.lt)(b, a) then b else a }
  function MaxOf<D, F>(ops: Ops<D, F>, a: F, b: F): F { if (ops.lt)(a, b) then b else a }
  function ClampOf<D, F>(ops: Ops<D, F>, x: F, lo: F, hi: F): F {
    if (ops.lt)(x, lo) then lo else if (ops.lt)(hi, x) then hi else x
  }

  function GateValue<D, F>(ops: Ops<D, F>, b: bool): F { if b then (ops.lit)(1.0) else (ops.lit)(0.0) }

  /** The field of another modulator's output that a mod_ref node selects. */
  function FieldValue<D, F>(ops: Ops<D, F>, out: ModOutput<F>, field: int): F {
    if field == 1 then out.aux
    else if field == 2 then GateValue(ops, out.gate)
    else if field == 3 then GateValue(ops, out.gate2)
    else if 4 <= field < 4 + |out.outputs| then out.outputs[field - 4]
    else out.cv
  }

  /** eval_node: `ins` holds the values read through the node's input slots. */
  function Fire<D, F>(ops: Ops<D, F>, n: Prim<F>, s0: F, s1: F, ins: seq<F>, inp: Input<D, F>): Fired<F> {
    var a, b, c := At(ops, ins, 0), At(ops, ins, 1), At(ops, ins, 2);
    match n.kind
    case Phasor =>
      var ph := (ops.add)(s0, (ops.mul)(a, inp.dt));
      Fired(s0, if (ops.le)((ops.lit)(1.0), ph) then (ops.sub)(ph, (ops.floor)(ph)) else ph, s1)
    case Slew =>
      var cur :=
        if (ops.lt)(s0, a) then
          (if (ops.lt)((ops.lit)(0.0), b) then MinOf(ops, (ops.add)(s0, (ops.div)(inp.dt, b)), a) else a)
        else
          (if (ops.lt)((ops.lit)(0.0), c) then MaxOf(ops, (ops.sub)(s0, (ops.div)(inp.dt, c)), a) else a);
      Fired(cur, cur, s1)
    case SampleHold =>
      var half := (ops.lit)(0.5);
      var held := if (ops.lt)(half, b) && (ops.le)(s1, half) then a else s0;
      Fired(held, held, b)
    case _ => Fired(Combine(ops, n, a, b, c, inp), s0, s1)
  }

  /** The stateless operators. */
  function Combine<D, F>(ops: Ops<D, F>, n: Prim<F>, a: F, b: F, c: F, inp: Input<D, F>): F {
    var one, half, two, three, four := (ops.lit)(1.0), (ops.lit)(0.5), (ops.lit)(2.0), (ops.lit)(3.0), (ops.lit)(4.0);
    match n.kind
    case ConstVal => n.arg
    case ParamRef => if n.key in inp.params then inp.params[n.key] else (ops.lit)(0.0)
    case ModRef =>
      if inp.engine.Some? && n.key in inp.engine.value then FieldValue(ops, inp.engine.value[n.key], n.field)
      else (ops.lit)(0.0)
    case BeatIn => (ops.ofDouble)(inp.beat)
    case BeatPhase =>
      if (ops.le)(a, (ops.lit)(0.0)) then (ops.lit)(0.0)
      else (ops.fmod)((ops.div)((ops.ofDouble)(inp.beat), a), one)
    case Sin => (ops.sin)((ops.mul)(a, (ops.lit)(6.283185307)))
    case Cos => (ops.cos)((ops.mul)(a, (ops.lit)(6.283185307)))
    case Tri => if (ops.lt)(a, half) then (ops.sub)((ops.mul)(four, a), one) else (ops.sub)(three, (ops.mul)(four, a))
    case Saw => (ops.sub)((ops.mul)(a, two), one)
    case Square => if (ops.lt)(a, b) then one else (ops.neg)(one)
    case Scale => (ops.add)(b, (ops.mul)(a, (ops.sub)(c, b)))
    case Clamp => ClampOf(ops, a, b, c)
    case Add => (ops.add)(a, b)
    case Mul => (ops.mul)(a, b)
    case Neg => (ops.neg)(a)
    case AbsVal => (ops.abs)(a)
    case Mix =>
      var t := ClampOf(ops, c, (ops.lit)(0.0), one);
      (ops.add)((ops.mul)(a, (ops.sub)(one, t)), (ops.mul)(b, t))
    case Threshold | Comparator => GateValue(ops, (ops.lt)(b, a))
    case Phasor | Slew | SampleHold => (ops.lit)(0.0)
  }

  // ---------------------------------------------------------------------------
  // The semantics a graph is compiled for
  // ---------------------------------------------------------------------------

  /**
   What the compiler and the evaluator need to know about numbers and nodes.  `head` is the
   operator table, `fire` what a node does on one tick, `dt` the time step for a tick rate and
   `high` the reading of a gate.
   Compilation is proved correct for every such record; `SemOf` is the one the program uses.
   */
  datatype Sem<!D, !F> = Sem(
    lit: real -> F,
    ofDouble: D -> F,
    ofInt: int -> F,
    head: (string, List<Edn<D>>) -> Option<Head<F>>,
    fire: (Prim<F>, F, F, seq<F>, Input<D, F>) -> Fired<F>,
    dt: F -> F,
    high: F -> bool)

  function SemOf<D, F>(ops: Ops<D, F>): Sem<D, F> {
    Sem(ops.lit, ops.ofDouble, ops.ofInt,
        (name, args) => HeadOf(ops, name, args),
        (op, s0, s1, ins, inp) => Fire(ops, op, s0, s1, ins, inp),
        rate => if (ops.lt)((ops.lit)(0.0), rate) then (ops.div)((ops.lit)(1.0), rate) else (ops.lit)(0.0),
        x => (ops.lt)((ops.lit)(0.5), x))
  }

  function Zero<D, F>(sem: Sem<D, F>): F { (sem.lit)(0.0) }

  /** A constant is its own value under every semantics. */
  function FireOp<D, F>(sem: Sem<D, F>, op: Prim<F>, s0: F, s1: F, ins: seq<F>, inp: Input<D, F>): Fired<F> {
    if op.kind.ConstVal? then Fired(op.arg, s0, s1) else (sem.fire)(op, s0, s1, ins, inp)
  }

  function ConstNode<D, F>(sem: Sem<D, F>, x: F): Node<F> {
    Node(Prim(ConstVal, x, 0, ""), [], Zero(sem), Zero(sem))
  }

  /** Reads one expression the way parse_node does, without recursing into it. */
  function ViewOf<D, F>(sem: Sem<D, F>, v: Edn<D>): (r: View<D, F>)
    ensures r.Apply? ==> v.Vector? && v.items.Cons? && r.args == v.items.tail
  {
    match v
    case Double(d) => Literal((sem.ofDouble)(d))
    case Int(i) => Literal((sem.ofInt)(i))
    case Vector(Cons(Keyword(name), args)) =>
      var head := (sem.head)(name, args);
      if head.None? then Bad else Apply(head.value.op, head.value.specs, args)
    case _ => Bad
  }

  // ---------------------------------------------------------------------------
  // Reference semantics: an expression is a function of the input history
  // ---------------------------------------------------------------------------

  /**
   The value of expression `v` on the last tick of history `h`.  A literal is itself, an
   expression that does not parse is zero, and an operator acts on the values of its
   arguments and on the state it has accumulated over the ticks before.
   */
  function Value<D, F>(sem: Sem<D, F>, v: Edn<D>, h: seq<Input<D, F>>): F
    requires |h| > 0
    decreases v, |h|, 2, 0
  {
    match ViewOf(sem, v)
    case Literal(x) => x
    case Bad => Zero(sem)
    case Apply(op, specs, args) =>
      var (s0, s1) := State(sem, v, h[..|h| - 1]);
      FireOp(sem, op, s0, s1, ArgValues(sem, specs, args, h), h[|h| - 1]).value
  }

  /** The state an operator occurrence holds after history `h`, zero before the first tick. */
  function State<D, F>(sem: Sem<D, F>, v: Edn<D>, h: seq<Input<D, F>>): (F, F)
    decreases v, |h|, 2, 0
  {
    match ViewOf(sem, v)
    case Apply(op, specs, args) =>
      if h == [] then (Zero(sem), Zero(sem)) else
      var (s0, s1) := State(sem, v, h[..|h| - 1]);
      var f := FireOp(sem, op, s0, s1, ArgValues(sem, specs, args, h), h[|h| - 1]);
      (f.s0, f.s1)
    case _ => (Zero(sem), Zero(sem))
  }

  /** The values of the arguments: extra arguments are ignored and missing ones take their default, or zero. */
  function ArgValues<D, F>(sem: Sem<D, F>, specs: List<ArgSpec>, args: List<Edn<D>>, h: seq<Input<D, F>>): seq<F>
    requires |h| > 0
    decreases args, |h|, 1, specs
  {
    if specs.Nil? then []
    else [FirstValue(sem, specs.head, args, h)] + ArgValues(sem, specs.tail, Rest(args), h)
  }

  function FirstValue<D, F>(sem: Sem<D, F>, spec: ArgSpec, args: List<Edn<D>>, h: seq<Input<D, F>>): F
    requires |h| > 0
    decreases args, |h|, 0
  {
    if args.Cons? then Value(sem, args.head, h)
    else if spec.Default? then (sem.lit)(spec.value)
    else Zero(sem)
  }
}
