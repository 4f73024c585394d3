/**
 The slew node (src/graph_modulator.cpp, parse_node and eval_node): an omitted fall time is 0.01 seconds, not
 the rise time that the comment on it names, and what that changes.
 */
module GraphSlew {
  import opened Basics
  import opened ControlGraph
  import opened GraphPhasor

  function SlewExpr<D>(args: List<Edn<D>>): Edn<D> { Vector(Cons(Keyword("slew"), args)) }

  /** [:slew signal rise] */
  function FallOmitted<D>(signal: Edn<D>, rise: Edn<D>): Edn<D> { SlewExpr(Cons(signal, Cons(rise, Nil))) }

  /** [:slew signal rise rise], which is what the comment says an omitted fall time means. */
  function FallAsRise<D>(signal: Edn<D>, rise: Edn<D>): Edn<D> { SlewExpr(Cons(signal, Cons(rise, Cons(rise, Nil)))) }

  /** The values that a slew node reads through its three inputs. */
  function Inputs<D, F>(ops: Ops<D, F>, args: List<Edn<D>>, h: seq<Input<D, F>>): seq<F>
    requires |h| > 0
  {
    ArgValues(SemOf(ops), Specs(Slew), args, h)
  }

  lemma {:induction false} InputsOf<D, F>(ops: Ops<D, F>, signal: Edn<D>, rise: Edn<D>, h: seq<Input<D, F>>)
    requires |h| > 0
    ensures var sem := SemOf(ops);
            var s, r := Value(sem, signal, h), Value(sem, rise, h);
            && Inputs(ops, Cons(signal, Cons(rise, Nil)), h) == [s, r, (ops.lit)(0.01)]
            && Inputs(ops, Cons(signal, Cons(rise, Cons(rise, Nil))), h) == [s, r, r]
  {
    var sem := SemOf(ops);
    var none, once: List<Edn<D>> := Nil, Cons(rise, Nil);
    var last: List<ArgSpec> := Cons(Default(0.01), Nil);
    var both: List<ArgSpec> := Cons(Default(0.01), last);
    var s, r, c := Value(sem, signal, h), Value(sem, rise, h), (ops.lit)(0.01);
    assert ArgValues(sem, Nil, none, h) == [];
    assert ArgValues(sem, last, none, h) == [c];
    assert ArgValues(sem, last, once, h) == [r];
    assert ArgValues(sem, both, once, h) == [r, c];
    assert ArgValues(sem, both, Cons(rise, once), h) == [r, r];
    assert Specs(Slew) == Cons(Required, both);
    assert ArgValues(sem, Specs(Slew), Cons(signal, once), h) == [s] + [r, c];
    assert ArgValues(sem, Specs(Slew), Cons(signal, Cons(rise, once)), h) == [s] + [r, r];
  }

  /**
   Without a third argument a slew node falls by the constant 0.01, whatever its rise time is, so on any tick its
   fall time is its rise time if and only if that is 0.01.
   */
  lemma {:induction false} FallDefault<D, F>(ops: Ops<D, F>, signal: Edn<D>, rise: Edn<D>, h: seq<Input<D, F>>)
    requires |h| > 0
    ensures var ins := Inputs(ops, Cons(signal, Cons(rise, Nil)), h);
            && |ins| == 3 && ins[1] == Value(SemOf(ops), rise, h) && ins[2] == (ops.lit)(0.01)
            && (ins[2] == ins[1] <==> Value(SemOf(ops), rise, h) == (ops.lit)(0.01))
  {
    InputsOf(ops, signal, rise, h);
  }

  lemma {:induction false} SlewView<D, F>(ops: Ops<D, F>, args: List<Edn<D>>)
    ensures ViewOf(SemOf(ops), SlewExpr(args)) == Apply(PrimOf(ops, Slew, args), Specs(Slew), args)
  {
    assert HeadOf(ops, "slew", args) == Some(Head(PrimOf(ops, Slew, args), Specs(Slew)));
  }

  /** The level that a slew node has reached after history `h`. */
  function Level<D, F>(ops: Ops<D, F>, args: List<Edn<D>>, h: seq<Input<D, F>>): F {
    State(SemOf(ops), SlewExpr(args), h).0
  }

  /** From level `cur` towards `target` in the given times. */
  function Moved<D, F>(ops: Ops<D, F>, cur: F, target: F, rise: F, fall: F, dt: F): F {
    if (ops.lt)(cur, target) then
      (if (ops.lt)((ops.lit)(0.0), rise) then MinOf(ops, (ops.add)(cur, (ops.div)(dt, rise)), target) else target)
    else
      (if (ops.lt)((ops.lit)(0.0), fall) then MaxOf(ops, (ops.sub)(cur, (ops.div)(dt, fall)), target) else target)
  }

  lemma {:induction false} FireSlew<D, F>(
    ops: Ops<D, F>, op: Prim<F>, s0: F, s1: F, a: F, b: F, c: F, inp: Input<D, F>)
    requires op.kind == Slew
    ensures var f := FireOp(SemOf(ops), op, s0, s1, [a, b, c], inp);
            f.s0 == f.value == Moved(ops, s0, a, b, c, inp.dt)
  {
    assert FireOp(SemOf(ops), op, s0, s1, [a, b, c], inp) == Fire(ops, op, s0, s1, [a, b, c], inp);
    assert At(ops, [a, b, c], 0) == a && At(ops, [a, b, c], 1) == b && At(ops, [a, b, c], 2) == c;
  }

  /** One tick moves the level, and the level is the value of the node. */
  lemma {:induction false} SlewStep<D, F>(
    ops: Ops<D, F>, args: List<Edn<D>>, h: seq<Input<D, F>>, a: F, b: F, c: F)
    requires |h| > 0 && Inputs(ops, args, h) == [a, b, c]
    ensures Level(ops, args, h) == Moved(ops, Level(ops, args, h[..|h| - 1]), a, b, c, h[|h| - 1].dt)
    ensures Value(SemOf(ops), SlewExpr(args), h) == Level(ops, args, h)
  {
    var sem := SemOf(ops);
    var op := PrimOf(ops, Slew, args);
    SlewView(ops, args);
    var s := State(sem, SlewExpr(args), h[..|h| - 1]);
    assert Level(ops, args, h) == FireOp(sem, op, s.0, s.1, [a, b, c], h[|h| - 1]).s0;
    FireSlew(ops, op, s.0, s.1, a, b, c, h[|h| - 1]);
  }

  /** On the last tick of `h` the level rises, or the rise time is 0.01. */
  predicate FallUnused<D, F(==)>(ops: Ops<D, F>, signal: Edn<D>, rise: Edn<D>, h: seq<Input<D, F>>)
    requires |h| > 0
  {
    || (ops.lt)(Level(ops, Cons(signal, Cons(rise, Nil)), h[..|h| - 1]), Value(SemOf(ops), signal, h))
    || Value(SemOf(ops), rise, h) == (ops.lit)(0.01)
  }

  /** As long as it only falls with a rise time of 0.01, the node does what its comment says. */
  lemma {:induction false} SlewsAgree<D, F>(ops: Ops<D, F>, signal: Edn<D>, rise: Edn<D>, h: seq<Input<D, F>>)
    requires forall t :: 0 < t <= |h| ==> FallUnused(ops, signal, rise, h[..t])
    ensures Level(ops, Cons(signal, Cons(rise, Nil)), h) == Level(ops, Cons(signal, Cons(rise, Cons(rise, Nil))), h)
    ensures |h| > 0 ==>
              Value(SemOf(ops), FallOmitted(signal, rise), h) == Value(SemOf(ops), FallAsRise(signal, rise), h)
    decreases |h|
  {
    var two := Cons(signal, Cons(rise, Nil));
    var three := Cons(signal, Cons(rise, Cons(rise, Nil)));
    if h == [] {
      SlewView(ops, two);
      SlewView(ops, three);
    } else {
      var front := h[..|h| - 1];
      forall t | 0 < t <= |front| ensures FallUnused(ops, signal, rise, front[..t]) {
        assert front[..t] == h[..t];
      }
      SlewsAgree(ops, signal, rise, front);
      assert h[..|h|] == h;
      assert FallUnused(ops, signal, rise, h);
      var s, r := Value(SemOf(ops), signal, h), Value(SemOf(ops), rise, h);
      InputsOf(ops, signal, rise, h);
      SlewStep(ops, two, h, s, r, (ops.lit)(0.01));
      SlewStep(ops, three, h, s, r, r);
    }
  }

  /** Otherwise it need not: a fall that should be immediate, rise time zero, only covers a tenth in a millisecond. */
  lemma {:induction false} OmittedFallIsSlow(m: Transcendentals, inp: Input<real, real>)
    requires inp.dt == 0.001 && (m.inverse)(0.01) == 100.0
    ensures var sem := SemOf(RealOps(m));
            && Value(sem, FallOmitted(Double(-1.0), Double(0.0)), [inp]) == -0.1
            && Value(sem, FallAsRise(Double(-1.0), Double(0.0)), [inp]) == -1.0
  {
    var ops := RealOps(m);
    var sem, signal, rise := SemOf(ops), Double(-1.0), Double(0.0);
    var two := Cons(signal, Cons(rise, Nil));
    var three := Cons(signal, Cons(rise, Cons(rise, Nil)));
    SlewView(ops, two);
    SlewView(ops, three);
    assert [inp][..0] == [];
    assert Value(sem, signal, [inp]) == -1.0 && Value(sem, rise, [inp]) == 0.0;
    InputsOf(ops, signal, rise, [inp]);
    SlewStep(ops, two, [inp], -1.0, 0.0, 0.01);
    SlewStep(ops, three, [inp], -1.0, 0.0, 0.0);
    assert (ops.div)(0.001, 0.01) == 0.001 * 100.0;
  }
}
