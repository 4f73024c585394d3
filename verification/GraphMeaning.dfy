/**
 What each form of the control-graph language denotes (src/graph_modulator.cpp, parse_node and eval_node), keyword by
 keyword: the value of a form in terms of the values of its arguments and, for the forms that remember something, of
 the whole history of ticks.  Any number of arguments may be given: missing ones take a default, extra ones are
 ignored.
 */
module GraphMeaning {
  import opened Basics
  import opened ControlGraph

  /** [:name args...] */
  function Form<D>(name: string, args: List<Edn<D>>): Edn<D> { Vector(Cons(Keyword(name), args)) }

  /** The value of argument `k`, or of the literal `default` if it is missing. */
  function ArgOr<D, F>(ops: Ops<D, F>, args: List<Edn<D>>, k: nat, default: real, h: seq<Input<D, F>>): F
    requires |h| > 0
  {
    if k < Length(args) then Value(SemOf(ops), Nth(args, k), h) else (ops.lit)(default)
  }

  // ---------------------------------------------------------------------------
  // Arguments
  // ---------------------------------------------------------------------------

  function DefaultOf(spec: ArgSpec): real { if spec.Default? then spec.value else 0.0 }

  lemma {:induction false} Shifted<D, F>(
    ops: Ops<D, F>, args: List<Edn<D>>, k: nat, default: real, h: seq<Input<D, F>>)
    requires |h| > 0
    ensures ArgOr(ops, Rest(args), k, default, h) == ArgOr(ops, args, k + 1, default, h)
  {
    if args.Cons? {
      assert Length(args) == 1 + Length(args.tail);
    }
  }

  lemma {:induction false} FirstArg<D, F>(ops: Ops<D, F>, spec: ArgSpec, args: List<Edn<D>>, h: seq<Input<D, F>>)
    requires |h| > 0
    ensures FirstValue(SemOf(ops), spec, args, h) == ArgOr(ops, args, 0, DefaultOf(spec), h)
  {
  }

  lemma {:induction false} NoArgs<D, F>(ops: Ops<D, F>, args: List<Edn<D>>, h: seq<Input<D, F>>)
    requires |h| > 0
    ensures ArgValues(SemOf(ops), Nil, args, h) == []
  {
  }

  lemma {:induction false} OneArg<D, F>(ops: Ops<D, F>, x: ArgSpec, args: List<Edn<D>>, h: seq<Input<D, F>>)
    requires |h| > 0
    ensures ArgValues(SemOf(ops), Cons(x, Nil), args, h) == [ArgOr(ops, args, 0, DefaultOf(x), h)]
  {
    FirstArg(ops, x, args, h);
    NoArgs(ops, Rest(args), h);
  }

  lemma {:induction false} TwoArgs<D, F>(
    ops: Ops<D, F>, x: ArgSpec, y: ArgSpec, args: List<Edn<D>>, h: seq<Input<D, F>>)
    requires |h| > 0
    ensures ArgValues(SemOf(ops), Cons(x, Cons(y, Nil)), args, h)
         == [ArgOr(ops, args, 0, DefaultOf(x), h), ArgOr(ops, args, 1, DefaultOf(y), h)]
  {
    FirstArg(ops, x, args, h);
    OneArg(ops, y, Rest(args), h);
    Shifted(ops, args, 0, DefaultOf(y), h);
  }

  lemma {:induction false} ThreeArgs<D, F>(
    ops: Ops<D, F>, x: ArgSpec, y: ArgSpec, z: ArgSpec, args: List<Edn<D>>, h: seq<Input<D, F>>)
    requires |h| > 0
    ensures ArgValues(SemOf(ops), Cons(x, Cons(y, Cons(z, Nil))), args, h)
         == [ArgOr(ops, args, 0, DefaultOf(x), h), ArgOr(ops, args, 1, DefaultOf(y), h),
             ArgOr(ops, args, 2, DefaultOf(z), h)]
  {
    FirstArg(ops, x, args, h);
    TwoArgs(ops, y, z, Rest(args), h);
    Shifted(ops, args, 0, DefaultOf(y), h);
    Shifted(ops, args, 1, DefaultOf(z), h);
  }

  // ---------------------------------------------------------------------------
  // From a form to its operator
  // ---------------------------------------------------------------------------

  lemma {:induction false} FormView<D, F>(ops: Ops<D, F>, name: string, kind: Kind, args: List<Edn<D>>)
    requires KindOf(name) == Some(kind)
    ensures ViewOf(SemOf(ops), Form(name, args)) == Apply(PrimOf(ops, kind, args), Specs(kind), args)
  {
    assert HeadOf(ops, name, args) == Some(Head(PrimOf(ops, kind, args), Specs(kind)));
  }

  predicate Remembers(kind: Kind) { kind.Phasor? || kind.Slew? || kind.SampleHold? }

  lemma {:induction false} Fires<D, F>(
    ops: Ops<D, F>, op: Prim<F>, s0: F, s1: F, ins: seq<F>, inp: Input<D, F>)
    requires !Remembers(op.kind)
    ensures FireOp(SemOf(ops), op, s0, s1, ins, inp).value
         == Combine(ops, op, At(ops, ins, 0), At(ops, ins, 1), At(ops, ins, 2), inp)
  {
    if !op.kind.ConstVal? {
      assert FireOp(SemOf(ops), op, s0, s1, ins, inp) == Fire(ops, op, s0, s1, ins, inp);
    }
  }

  /** The value of a form without memory, from the values `ins` of its arguments. */
  lemma {:induction false} FormValue<D, F>(
    ops: Ops<D, F>, name: string, kind: Kind, args: List<Edn<D>>, h: seq<Input<D, F>>, ins: seq<F>)
    requires |h| > 0 && KindOf(name) == Some(kind) && !Remembers(kind)
    requires ArgValues(SemOf(ops), Specs(kind), args, h) == ins
    ensures Value(SemOf(ops), Form(name, args), h)
         == Combine(ops, PrimOf(ops, kind, args), At(ops, ins, 0), At(ops, ins, 1), At(ops, ins, 2), h[|h| - 1])
  {
    var sem, v, op := SemOf(ops), Form(name, args), PrimOf(ops, kind, args);
    FormView(ops, name, kind, args);
    var s := State(sem, v, h[..|h| - 1]);
    assert Value(sem, v, h) == FireOp(sem, op, s.0, s.1, ins, h[|h| - 1]).value;
    Fires(ops, op, s.0, s.1, ins, h[|h| - 1]);
  }

  lemma {:induction false} Unary<D, F>(
    ops: Ops<D, F>, name: string, kind: Kind, args: List<Edn<D>>, h: seq<Input<D, F>>, x: ArgSpec, a: F)
    requires |h| > 0 && KindOf(name) == Some(kind) && !Remembers(kind) && Specs(kind) == Cons(x, Nil)
    requires a == ArgOr(ops, args, 0, DefaultOf(x), h)
    ensures var none := (ops.lit)(0.0);
            Value(SemOf(ops), Form(name, args), h)
            == Combine(ops, PrimOf(ops, kind, args), a, none, none, h[|h| - 1])
  {
    OneArg(ops, x, args, h);
    FormValue(ops, name, kind, args, h, [a]);
  }

  lemma {:induction false} Binary<D, F>(
    ops: Ops<D, F>, name: string, kind: Kind, args: List<Edn<D>>, h: seq<Input<D, F>>,
    x: ArgSpec, y: ArgSpec, a: F, b: F)
    requires |h| > 0 && KindOf(name) == Some(kind) && !Remembers(kind) && Specs(kind) == Cons(x, Cons(y, Nil))
    requires a == ArgOr(ops, args, 0, DefaultOf(x), h) && b == ArgOr(ops, args, 1, DefaultOf(y), h)
    ensures Value(SemOf(ops), Form(name, args), h)
         == Combine(ops, PrimOf(ops, kind, args), a, b, (ops.lit)(0.0), h[|h| - 1])
  {
    TwoArgs(ops, x, y, args, h);
    FormValue(ops, name, kind, args, h, [a, b]);
  }

  lemma {:induction false} Ternary<D, F>(
    ops: Ops<D, F>, name: string, kind: Kind, args: List<Edn<D>>, h: seq<Input<D, F>>,
    x: ArgSpec, y: ArgSpec, z: ArgSpec, a: F, b: F, c: F)
    requires |h| > 0 && KindOf(name) == Some(kind) && !Remembers(kind)
    requires Specs(kind) == Cons(x, Cons(y, Cons(z, Nil))) && a == ArgOr(ops, args, 0, DefaultOf(x), h)
    requires b == ArgOr(ops, args, 1, DefaultOf(y), h) && c == ArgOr(ops, args, 2, DefaultOf(z), h)
    ensures Value(SemOf(ops), Form(name, args), h) == Combine(ops, PrimOf(ops, kind, args), a, b, c, h[|h| - 1])
  {
    ThreeArgs(ops, x, y, z, args, h);
    FormValue(ops, name, kind, args, h, [a, b, c]);
  }

  // ---------------------------------------------------------------------------
  // Literals and sources
  // ---------------------------------------------------------------------------

  /** A number is itself, [:const x] its double and nothing else, [:beat] the beat. */
  lemma {:induction false} Numbers<D, F>(ops: Ops<D, F>, args: List<Edn<D>>, h: seq<Input<D, F>>)
    requires |h| > 0
    ensures forall d :: Value(SemOf(ops), Double(d), h) == (ops.ofDouble)(d)
    ensures forall i :: Value(SemOf(ops), Int(i), h) == (ops.ofInt)(i)
    ensures Value(SemOf(ops), Form("const", args), h)
         == if args.Cons? && args.head.Double? then (ops.ofDouble)(args.head.d) else (ops.lit)(0.0)
    ensures Value(SemOf(ops), Form("beat", args), h) == (ops.ofDouble)(h[|h| - 1].beat)
  {
    NoArgs(ops, args, h);
    FormValue(ops, "const", ConstVal, args, h, []);
    FormValue(ops, "beat", BeatIn, args, h, []);
  }

  /** [:param :key] is the live parameter of that name, or zero. */
  lemma {:induction false} Parameter<D, F>(ops: Ops<D, F>, key: string, more: List<Edn<D>>, h: seq<Input<D, F>>)
    requires |h| > 0
    ensures var params := h[|h| - 1].params;
            Value(SemOf(ops), Form("param", Cons(Keyword(key), more)), h)
            == if key in params then params[key] else (ops.lit)(0.0)
  {
    var args := Cons(Keyword(key), more);
    NoArgs(ops, args, h);
    FormValue(ops, "param", ParamRef, args, h, []);
    assert PrimOf(ops, ParamRef, args).key == key;
  }

  /** [:mod-out :id :field] is that field of the other modulator's output: a gate as one or zero, cv by default. */
  lemma {:induction false} OtherModulator<D, F>(
    ops: Ops<D, F>, id: string, field: List<Edn<D>>, h: seq<Input<D, F>>)
    requires |h| > 0
    ensures var engine, v := h[|h| - 1].engine, Value(SemOf(ops), Form("mod-out", Cons(Keyword(id), field)), h);
            if engine.None? || id !in engine.value then v == (ops.lit)(0.0)
            else
              var out := engine.value[id];
              if field.Cons? && field.head == Keyword("aux") then v == out.aux
              else if field.Cons? && field.head == Keyword("gate") then
                v == if out.gate then (ops.lit)(1.0) else (ops.lit)(0.0)
              else if field.Cons? && field.head == Keyword("gate2") then
                v == if out.gate2 then (ops.lit)(1.0) else (ops.lit)(0.0)
              else v == out.cv
  {
    var args := Cons(Keyword(id), field);
    NoArgs(ops, args, h);
    FormValue(ops, "mod-out", ModRef, args, h, []);
    var op := PrimOf(ops, ModRef, args);
    assert Rest(args) == field;
    assert op.key == id && op.field == if field.Cons? && field.head.Keyword? then FieldOf(field.head.name) else 0;
  }

  /** [:beat-phase period] is the fraction of the period of beats, zero unless the period is positive. */
  lemma {:induction false} PhaseOfBeat<D, F>(ops: Ops<D, F>, args: List<Edn<D>>, h: seq<Input<D, F>>)
    requires |h| > 0
    ensures var period := ArgOr(ops, args, 0, 1.0, h);
            Value(SemOf(ops), Form("beat-phase", args), h)
            == if (ops.le)(period, (ops.lit)(0.0)) then (ops.lit)(0.0)
               else (ops.fmod)((ops.div)((ops.ofDouble)(h[|h| - 1].beat), period), (ops.lit)(1.0))
  {
    Unary(ops, "beat-phase", BeatPhase, args, h, Default(1.0), ArgOr(ops, args, 0, 1.0, h));
  }

  // ---------------------------------------------------------------------------
  // Shapes and arithmetic
  // ---------------------------------------------------------------------------

  /** [:sin phase]: one turn per unit of phase. */
  lemma {:induction false} Sine<D, F>(ops: Ops<D, F>, args: List<Edn<D>>, h: seq<Input<D, F>>)
    requires |h| > 0
    ensures var a := ArgOr(ops, args, 0, 0.0, h);
            Value(SemOf(ops), Form("sin", args), h) == (ops.sin)((ops.mul)(a, (ops.lit)(6.283185307)))
  {
    Unary(ops, "sin", Sin, args, h, Required, ArgOr(ops, args, 0, 0.0, h));
  }

  lemma {:induction false} Cosine<D, F>(ops: Ops<D, F>, args: List<Edn<D>>, h: seq<Input<D, F>>)
    requires |h| > 0
    ensures var a := ArgOr(ops, args, 0, 0.0, h);
            Value(SemOf(ops), Form("cos", args), h) == (ops.cos)((ops.mul)(a, (ops.lit)(6.283185307)))
  {
    Unary(ops, "cos", Cos, args, h, Required, ArgOr(ops, args, 0, 0.0, h));
  }

  /** [:saw phase] rises from -1 to 1. */
  lemma {:induction false} Sawtooth<D, F>(ops: Ops<D, F>, args: List<Edn<D>>, h: seq<Input<D, F>>)
    requires |h| > 0
    ensures var a := ArgOr(ops, args, 0, 0.0, h);
            Value(SemOf(ops), Form("saw", args), h) == (ops.sub)((ops.mul)(a, (ops.lit)(2.0)), (ops.lit)(1.0))
  {
    Unary(ops, "saw", Saw, args, h, Required, ArgOr(ops, args, 0, 0.0, h));
  }

  /** [:tri phase] rises from -1 at 0 to 1 at one half and falls back. */
  lemma {:induction false} Triangle<D, F>(ops: Ops<D, F>, args: List<Edn<D>>, h: seq<Input<D, F>>)
    requires |h| > 0
    ensures var a := ArgOr(ops, args, 0, 0.0, h);
            Value(SemOf(ops), Form("tri", args), h) == (
              if (ops.lt)(a, (ops.lit)(0.5)) then (ops.sub)((ops.mul)((ops.lit)(4.0), a), (ops.lit)(1.0))
              else (ops.sub)((ops.lit)(3.0), (ops.mul)((ops.lit)(4.0), a)))
  {
    Unary(ops, "tri", Tri, args, h, Required, ArgOr(ops, args, 0, 0.0, h));
  }

  /** [:square phase width] is high below its width, which is one half by default. */
  lemma {:induction false} SquareWave<D, F>(ops: Ops<D, F>, args: List<Edn<D>>, h: seq<Input<D, F>>)
    requires |h| > 0
    ensures var a, b := ArgOr(ops, args, 0, 0.0, h), ArgOr(ops, args, 1, 0.5, h);
            Value(SemOf(ops), Form("square", args), h) == (
              if (ops.lt)(a, b) then (ops.lit)(1.0) else (ops.neg)((ops.lit)(1.0)))
  {
    var a, b := ArgOr(ops, args, 0, 0.0, h), ArgOr(ops, args, 1, 0.5, h);
    Binary(ops, "square", Square, args, h, Required, Default(0.5), a, b);
  }

  lemma {:induction false} Sum<D, F>(ops: Ops<D, F>, args: List<Edn<D>>, h: seq<Input<D, F>>)
    requires |h| > 0
    ensures var a, b := ArgOr(ops, args, 0, 0.0, h), ArgOr(ops, args, 1, 0.0, h);
            Value(SemOf(ops), Form("add", args), h) == (ops.add)(a, b)
  {
    var a, b := ArgOr(ops, args, 0, 0.0, h), ArgOr(ops, args, 1, 0.0, h);
    Binary(ops, "add", Add, args, h, Required, Required, a, b);
  }

  lemma {:induction false} Product<D, F>(ops: Ops<D, F>, args: List<Edn<D>>, h: seq<Input<D, F>>)
    requires |h| > 0
    ensures var a, b := ArgOr(ops, args, 0, 0.0, h), ArgOr(ops, args, 1, 0.0, h);
            Value(SemOf(ops), Form("mul", args), h) == (ops.mul)(a, b)
  {
    var a, b := ArgOr(ops, args, 0, 0.0, h), ArgOr(ops, args, 1, 0.0, h);
    Binary(ops, "mul", Mul, args, h, Required, Required, a, b);
  }

  lemma {:induction false} Negation<D, F>(ops: Ops<D, F>, args: List<Edn<D>>, h: seq<Input<D, F>>)
    requires |h| > 0
    ensures var a := ArgOr(ops, args, 0, 0.0, h);
            Value(SemOf(ops), Form("neg", args), h) == (ops.neg)(a)
  {
    Unary(ops, "neg", Neg, args, h, Required, ArgOr(ops, args, 0, 0.0, h));
  }

  lemma {:induction false} Absolute<D, F>(ops: Ops<D, F>, args: List<Edn<D>>, h: seq<Input<D, F>>)
    requires |h| > 0
    ensures var a := ArgOr(ops, args, 0, 0.0, h);
            Value(SemOf(ops), Form("abs", args), h) == (ops.abs)(a)
  {
    Unary(ops, "abs", AbsVal, args, h, Required, ArgOr(ops, args, 0, 0.0, h));
  }

  /** [:threshold x level] is one when x exceeds the level, which is one half by default, else zero. */
  lemma {:induction false} AboveLevel<D, F>(ops: Ops<D, F>, args: List<Edn<D>>, h: seq<Input<D, F>>)
    requires |h| > 0
    ensures var a, b := ArgOr(ops, args, 0, 0.0, h), ArgOr(ops, args, 1, 0.5, h);
            Value(SemOf(ops), Form("threshold", args), h) == (
              if (ops.lt)(b, a) then (ops.lit)(1.0) else (ops.lit)(0.0))
  {
    var a, b := ArgOr(ops, args, 0, 0.0, h), ArgOr(ops, args, 1, 0.5, h);
    Binary(ops, "threshold", Threshold, args, h, Required, Default(0.5), a, b);
  }

  /** [:comparator a b] is one when a exceeds b, else zero. */
  lemma {:induction false} Compared<D, F>(ops: Ops<D, F>, args: List<Edn<D>>, h: seq<Input<D, F>>)
    requires |h| > 0
    ensures var a, b := ArgOr(ops, args, 0, 0.0, h), ArgOr(ops, args, 1, 0.0, h);
            Value(SemOf(ops), Form("comparator", args), h) == (
              if (ops.lt)(b, a) then (ops.lit)(1.0) else (ops.lit)(0.0))
  {
    var a, b := ArgOr(ops, args, 0, 0.0, h), ArgOr(ops, args, 1, 0.0, h);
    Binary(ops, "comparator", Comparator, args, h, Required, Required, a, b);
  }

  /** [:scale x lo hi] takes 0 to lo and 1 to hi; lo is 0 and hi is 1 by default. */
  lemma {:induction false} Scaled<D, F>(ops: Ops<D, F>, args: List<Edn<D>>, h: seq<Input<D, F>>)
    requires |h| > 0
    ensures var x, lo, hi := ArgOr(ops, args, 0, 0.0, h), ArgOr(ops, args, 1, 0.0, h), ArgOr(ops, args, 2, 1.0, h);
            Value(SemOf(ops), Form("scale", args), h) == (ops.add)(lo, (ops.mul)(x, (ops.sub)(hi, lo)))
  {
    var x, lo, hi := ArgOr(ops, args, 0, 0.0, h), ArgOr(ops, args, 1, 0.0, h), ArgOr(ops, args, 2, 1.0, h);
    Ternary(ops, "scale", Scale, args, h, Required, Default(0.0), Default(1.0), x, lo, hi);
  }

  /** [:clamp x lo hi] holds x between lo and hi, 0 and 1 by default. */
  lemma {:induction false} Clamped<D, F>(ops: Ops<D, F>, args: List<Edn<D>>, h: seq<Input<D, F>>)
    requires |h| > 0
    ensures var x, lo, hi := ArgOr(ops, args, 0, 0.0, h), ArgOr(ops, args, 1, 0.0, h), ArgOr(ops, args, 2, 1.0, h);
            Value(SemOf(ops), Form("clamp", args), h) == (
              if (ops.lt)(x, lo) then lo else if (ops.lt)(hi, x) then hi else x)
  {
    var x, lo, hi := ArgOr(ops, args, 0, 0.0, h), ArgOr(ops, args, 1, 0.0, h), ArgOr(ops, args, 2, 1.0, h);
    Ternary(ops, "clamp", Clamp, args, h, Required, Default(0.0), Default(1.0), x, lo, hi);
  }

  /** [:mix a b t] goes from a to b as t goes from 0 to 1, and no further. */
  lemma {:induction false} Mixed<D, F>(ops: Ops<D, F>, args: List<Edn<D>>, h: seq<Input<D, F>>)
    requires |h| > 0
    ensures var zero, one, t := (ops.lit)(0.0), (ops.lit)(1.0), ArgOr(ops, args, 2, 0.5, h);
            var held := if (ops.lt)(t, zero) then zero else if (ops.lt)(one, t) then one else t;
            Value(SemOf(ops), Form("mix", args), h)
            == (ops.add)((ops.mul)(ArgOr(ops, args, 0, 0.0, h), (ops.sub)(one, held)),
                         (ops.mul)(ArgOr(ops, args, 1, 0.0, h), held))
  {
    var a, b, t := ArgOr(ops, args, 0, 0.0, h), ArgOr(ops, args, 1, 0.0, h), ArgOr(ops, args, 2, 0.5, h);
    Ternary(ops, "mix", Mix, args, h, Required, Required, Default(0.5), a, b, t);
  }

  // ---------------------------------------------------------------------------
  // Forms that remember
  // ---------------------------------------------------------------------------

  /** What a form with memory leaves behind after a tick, from the values of its arguments. */
  lemma {:induction false} FormState<D, F>(
    ops: Ops<D, F>, name: string, kind: Kind, args: List<Edn<D>>, h: seq<Input<D, F>>, ins: seq<F>)
    requires |h| > 0 && KindOf(name) == Some(kind) && Remembers(kind)
    requires ArgValues(SemOf(ops), Specs(kind), args, h) == ins
    ensures var s := State(SemOf(ops), Form(name, args), h[..|h| - 1]);
            var f := Fire(ops, PrimOf(ops, kind, args), s.0, s.1, ins, h[|h| - 1]);
            && Value(SemOf(ops), Form(name, args), h) == f.value
            && State(SemOf(ops), Form(name, args), h) == (f.s0, f.s1)
  {
    var sem, v, op := SemOf(ops), Form(name, args), PrimOf(ops, kind, args);
    FormView(ops, name, kind, args);
    var s := State(sem, v, h[..|h| - 1]);
    assert FireOp(sem, op, s.0, s.1, ins, h[|h| - 1]) == Fire(ops, op, s.0, s.1, ins, h[|h| - 1]);
  }

  lemma {:induction false} FormStart<D, F>(ops: Ops<D, F>, name: string, kind: Kind, args: List<Edn<D>>)
    requires KindOf(name) == Some(kind)
    ensures State(SemOf(ops), Form(name, args), []) == ((ops.lit)(0.0), (ops.lit)(0.0))
  {
    FormView(ops, name, kind, args);
  }

  /** The value of the gate argument of a sample-hold after `t` ticks; before the first it counts as zero. */
  function Gate<D, F>(ops: Ops<D, F>, args: List<Edn<D>>, h: seq<Input<D, F>>, t: nat): F
    requires t <= |h|
  {
    if t == 0 then (ops.lit)(0.0) else ArgOr(ops, args, 1, 0.0, h[..t])
  }

  /** On tick `t` the gate goes from at most one half to more. */
  predicate Opens<D, F>(ops: Ops<D, F>, args: List<Edn<D>>, h: seq<Input<D, F>>, t: nat)
    requires 0 < t <= |h|
  {
    (ops.lt)((ops.lit)(0.5), Gate(ops, args, h, t)) && (ops.le)(Gate(ops, args, h, t - 1), (ops.lit)(0.5))
  }

  lemma {:induction false} HoldStep<D, F>(ops: Ops<D, F>, args: List<Edn<D>>, h: seq<Input<D, F>>)
    requires |h| > 0
    ensures var v, half := Form("sample-hold", args), (ops.lit)(0.5);
            var s, g := State(SemOf(ops), v, h[..|h| - 1]), ArgOr(ops, args, 1, 0.0, h);
            && State(SemOf(ops), v, h).1 == g
            && State(SemOf(ops), v, h).0 == Value(SemOf(ops), v, h)
            && Value(SemOf(ops), v, h)
               == if (ops.lt)(half, g) && (ops.le)(s.1, half) then ArgOr(ops, args, 0, 0.0, h) else s.0
  {
    var a, g := ArgOr(ops, args, 0, 0.0, h), ArgOr(ops, args, 1, 0.0, h);
    TwoArgs(ops, Required, Required, args, h);
    FormState(ops, "sample-hold", SampleHold, args, h, [a, g]);
    assert At(ops, [a, g], 0) == a && At(ops, [a, g], 1) == g;
  }

  lemma {:induction false} HoldState<D, F>(ops: Ops<D, F>, args: List<Edn<D>>, h: seq<Input<D, F>>)
    ensures State(SemOf(ops), Form("sample-hold", args), h).1 == Gate(ops, args, h, |h|)
  {
    if h == [] {
      FormStart(ops, "sample-hold", SampleHold, args);
    } else {
      HoldStep(ops, args, h);
      assert h[..|h|] == h;
    }
  }

  lemma {:induction false} HoldNext<D, F>(ops: Ops<D, F>, args: List<Edn<D>>, h: seq<Input<D, F>>)
    requires |h| > 0
    ensures State(SemOf(ops), Form("sample-hold", args), h).0 == Value(SemOf(ops), Form("sample-hold", args), h)
    ensures Value(SemOf(ops), Form("sample-hold", args), h)
         == if Opens(ops, args, h, |h|) then ArgOr(ops, args, 0, 0.0, h)
            else State(SemOf(ops), Form("sample-hold", args), h[..|h| - 1]).0
  {
    var front := h[..|h| - 1];
    HoldStep(ops, args, h);
    HoldState(ops, args, front);
    GateEarlier(ops, args, h, |h| - 1, |h| - 1);
    assert h[..|h|] == h;
  }

  /** Nothing changes on a tick on which the gate does not open. */
  lemma {:induction false} HoldKeeps<D, F>(ops: Ops<D, F>, args: List<Edn<D>>, h: seq<Input<D, F>>)
    requires |h| > 1 && !Opens(ops, args, h, |h|)
    ensures Value(SemOf(ops), Form("sample-hold", args), h)
         == Value(SemOf(ops), Form("sample-hold", args), h[..|h| - 1])
  {
    HoldNext(ops, args, h);
    HoldNext(ops, args, h[..|h| - 1]);
  }

  lemma {:induction false} GateEarlier<D, F>(ops: Ops<D, F>, args: List<Edn<D>>, h: seq<Input<D, F>>, n: nat, t: nat)
    requires t <= n <= |h|
    ensures Gate(ops, args, h[..n], t) == Gate(ops, args, h, t)
  {
    assert h[..n][..t] == h[..t];
  }

  lemma {:induction false} OpensEarlier<D, F>(
    ops: Ops<D, F>, args: List<Edn<D>>, h: seq<Input<D, F>>, n: nat, t: nat)
    requires 0 < t <= n <= |h|
    ensures Opens(ops, args, h[..n], t) <==> Opens(ops, args, h, t)
  {
    GateEarlier(ops, args, h, n, t);
    GateEarlier(ops, args, h, n, t - 1);
  }

  ghost predicate NoOpening<D, F>(ops: Ops<D, F>, args: List<Edn<D>>, h: seq<Input<D, F>>, from: nat) {
    forall u :: from < u <= |h| ==> !Opens(ops, args, h, u)
  }

  lemma {:induction false} NoOpeningBefore<D, F>(
    ops: Ops<D, F>, args: List<Edn<D>>, h: seq<Input<D, F>>, from: nat)
    requires from < |h| && NoOpening(ops, args, h, from)
    ensures NoOpening(ops, args, h[..|h| - 1], from) && !Opens(ops, args, h, |h|)
  {
    var n := |h| - 1;
    forall u | from < u <= n ensures !Opens(ops, args, h[..n], u) {
      OpensEarlier(ops, args, h, n, u);
    }
  }

  /**
   [:sample-hold signal gate] is what its signal was on the last tick on which the gate went above one half from at
   most one half.
   */
  lemma {:induction false} HeldSinceOpening<D, F>(
    ops: Ops<D, F>, args: List<Edn<D>>, h: seq<Input<D, F>>, t: nat)
    requires 0 < t <= |h| && Opens(ops, args, h, t) && NoOpening(ops, args, h, t)
    ensures Value(SemOf(ops), Form("sample-hold", args), h) == ArgOr(ops, args, 0, 0.0, h[..t])
    decreases |h|
  {
    if t == |h| {
      HoldNext(ops, args, h);
      assert h[..t] == h;
    } else {
      var front := h[..|h| - 1];
      NoOpeningBefore(ops, args, h, t);
      OpensEarlier(ops, args, h, |h| - 1, t);
      HeldSinceOpening(ops, args, front, t);
      HoldKeeps(ops, args, h);
      assert front[..t] == h[..t];
    }
  }

  /** And zero until there is one. */
  lemma {:induction false} HeldBeforeOpening<D, F>(ops: Ops<D, F>, args: List<Edn<D>>, h: seq<Input<D, F>>)
    requires |h| > 0 && NoOpening(ops, args, h, 0)
    ensures Value(SemOf(ops), Form("sample-hold", args), h) == (ops.lit)(0.0)
    decreases |h|
  {
    NoOpeningBefore(ops, args, h, 0);
    if |h| == 1 {
      HoldNext(ops, args, h);
      assert h[..0] == [];
      FormStart(ops, "sample-hold", SampleHold, args);
    } else {
      HeldBeforeOpening(ops, args, h[..|h| - 1]);
      HoldKeeps(ops, args, h);
    }
  }

  /**
   [:phasor rate] starts at zero and puts out its phase before it moves on: the next tick's value is this one's plus
   rate times the time step, less its whole part once that reaches one.
   */
  lemma {:induction false} PhasorRuns<D, F>(ops: Ops<D, F>, args: List<Edn<D>>, h: seq<Input<D, F>>, inp: Input<D, F>)
    ensures var v := Form("phasor", args);
            && Value(SemOf(ops), v, [inp]) == (ops.lit)(0.0)
            && (|h| > 0 ==>
                  var advance := (ops.mul)(ArgOr(ops, args, 0, 1.0, h), h[|h| - 1].dt);
                  var moved := (ops.add)(Value(SemOf(ops), v, h), advance);
                  Value(SemOf(ops), v, h + [inp])
                  == if (ops.le)((ops.lit)(1.0), moved) then (ops.sub)(moved, (ops.floor)(moved)) else moved)
  {
    PhasorStep(ops, args, [inp]);
    FormStart(ops, "phasor", Phasor, args);
    assert [inp][..0] == [];
    if |h| > 0 {
      PhasorStep(ops, args, h);
      PhasorStep(ops, args, h + [inp]);
      assert (h + [inp])[..|h|] == h;
    }
  }

  lemma {:induction false} PhasorStep<D, F>(ops: Ops<D, F>, args: List<Edn<D>>, h: seq<Input<D, F>>)
    requires |h| > 0
    ensures var v := Form("phasor", args);
            var s0 := State(SemOf(ops), v, h[..|h| - 1]).0;
            var moved := (ops.add)(s0, (ops.mul)(ArgOr(ops, args, 0, 1.0, h), h[|h| - 1].dt));
            && Value(SemOf(ops), v, h) == s0
            && State(SemOf(ops), v, h).0
               == if (ops.le)((ops.lit)(1.0), moved) then (ops.sub)(moved, (ops.floor)(moved)) else moved
  {
    var a := ArgOr(ops, args, 0, 1.0, h);
    OneArg(ops, Default(1.0), args, h);
    FormState(ops, "phasor", Phasor, args, h, [a]);
    assert At(ops, [a], 0) == a;
  }

  /** The level that a slew has reached when tick |h| begins: what it put out on the tick before, zero at first. */
  function LevelBefore<D, F>(ops: Ops<D, F>, args: List<Edn<D>>, h: seq<Input<D, F>>): F
    requires |h| > 0
  {
    if |h| == 1 then (ops.lit)(0.0) else Value(SemOf(ops), Form("slew", args), h[..|h| - 1])
  }

  /**
   [:slew signal rise fall] moves towards its signal without passing it, by the time step over the time for that
   direction, both of which are 0.01 by default, and at once if that time is not positive.
   */
  lemma {:induction false} SlewMoves<D, F>(ops: Ops<D, F>, args: List<Edn<D>>, h: seq<Input<D, F>>)
    requires |h| > 0
    ensures var cur, dt, zero := LevelBefore(ops, args, h), h[|h| - 1].dt, (ops.lit)(0.0);
            var goal, rise := ArgOr(ops, args, 0, 0.0, h), ArgOr(ops, args, 1, 0.01, h);
            var fall := ArgOr(ops, args, 2, 0.01, h);
            var up, down := (ops.add)(cur, (ops.div)(dt, rise)), (ops.sub)(cur, (ops.div)(dt, fall));
            Value(SemOf(ops), Form("slew", args), h)
            == if (ops.lt)(cur, goal) then
                 (if (ops.lt)(zero, rise) && !(ops.lt)(goal, up) then up else goal)
               else
                 (if (ops.lt)(zero, fall) && !(ops.lt)(down, goal) then down else goal)
  {
    SlewStep(ops, args, h);
    if |h| == 1 {
      FormStart(ops, "slew", Slew, args);
      assert h[..0] == [];
    } else {
      SlewStep(ops, args, h[..|h| - 1]);
    }
  }

  lemma {:induction false} SlewStep<D, F>(ops: Ops<D, F>, args: List<Edn<D>>, h: seq<Input<D, F>>)
    requires |h| > 0
    ensures var v, dt, zero := Form("slew", args), h[|h| - 1].dt, (ops.lit)(0.0);
            var cur := State(SemOf(ops), v, h[..|h| - 1]).0;
            var goal, rise := ArgOr(ops, args, 0, 0.0, h), ArgOr(ops, args, 1, 0.01, h);
            var fall := ArgOr(ops, args, 2, 0.01, h);
            var up, down := (ops.add)(cur, (ops.div)(dt, rise)), (ops.sub)(cur, (ops.div)(dt, fall));
            && State(SemOf(ops), v, h).0 == Value(SemOf(ops), v, h)
            && Value(SemOf(ops), v, h)
               == if (ops.lt)(cur, goal) then
                    (if (ops.lt)(zero, rise) && !(ops.lt)(goal, up) then up else goal)
                  else
                    (if (ops.lt)(zero, fall) && !(ops.lt)(down, goal) then down else goal)
  {
    var a, b, c := ArgOr(ops, args, 0, 0.0, h), ArgOr(ops, args, 1, 0.01, h), ArgOr(ops, args, 2, 0.01, h);
    ThreeArgs(ops, Required, Default(0.01), Default(0.01), args, h);
    FormState(ops, "slew", Slew, args, h, [a, b, c]);
    assert At(ops, [a, b, c], 0) == a && At(ops, [a, b, c], 1) == b && At(ops, [a, b, c], 2) == c;
  }

  // ---------------------------------------------------------------------------
  // What does not parse
  // ---------------------------------------------------------------------------

  /** The keywords that name an operator. */
  const OPERATORS: set<string> := {
    "const", "param", "mod-out", "beat", "beat-phase", "phasor", "sin", "cos", "tri", "saw", "square", "scale",
    "clamp", "add", "mul", "neg", "abs", "mix", "slew", "sample-hold", "threshold", "comparator"}

  /** A number, or a vector that starts with one of them. */
  predicate Parses<D>(v: Edn<D>) {
    || v.Double? || v.Int?
    || (v.Vector? && v.items.Cons? && v.items.head.Keyword? && v.items.head.name in OPERATORS)
  }

  lemma {:induction false} ParsesExactly<D, F>(ops: Ops<D, F>, v: Edn<D>)
    ensures !ViewOf(SemOf(ops), v).Bad? <==> Parses(v)
  {
    if v.Vector? && v.items.Cons? && v.items.head.Keyword? {
      var name := v.items.head.name;
      assert KindOf(name).Some? <==> name in OPERATORS;
      assert HeadOf(ops, name, v.items.tail).Some? <==> KindOf(name).Some?;
    }
  }

  /** Everything else is zero. */
  lemma {:induction false} NonsenseIsZero<D, F>(ops: Ops<D, F>, v: Edn<D>, h: seq<Input<D, F>>)
    requires |h| > 0 && !Parses(v)
    ensures Value(SemOf(ops), v, h) == (ops.lit)(0.0)
  {
    ParsesExactly(ops, v);
  }
}
