/**
 The phasor node over exact real arithmetic (src/graph_modulator.cpp, eval_node): what its stored
 phase means after any history of ticks.
 */
module GraphPhasor {
  import opened Basics
  import opened ControlGraph

  /** The functions that real arithmetic leaves open; nothing is assumed about them. */
  datatype Transcendentals = Transcendentals(
    sin: real -> real, cos: real -> real, fmod: (real, real) -> real, inverse: real -> real)

  function RealOps(m: Transcendentals): Ops<real, real> {
    Ops((r: real) => r, (d: real) => d, (i: int) => i as real,
        (x: real, y: real) => x + y, (x: real, y: real) => x - y, (x: real, y: real) => x * y,
        (x: real, y: real) => x * (m.inverse)(y),
        (x: real) => -x, (x: real) => if x < 0.0 then -x else x, m.fmod, (x: real) => x.Floor as real, m.sin, m.cos,
        (x: real, y: real) => x < y, (x: real, y: real) => x <= y)
  }

  function Fraction(x: real): real { x - x.Floor as real }

  function PhasorExpr<D>(args: List<Edn<D>>): Edn<D> { Vector(Cons(Keyword("phasor"), args)) }

  function Distance(rate: real, dt: real): real { rate * dt }

  /** How far the phasor advances on the last tick of `h`: the value of its rate argument times the time step. */
  function Advance(sem: Sem<real, real>, args: List<Edn<real>>, h: seq<Input<real, real>>): real
    requires |h| > 0
  {
    Distance(FirstValue(sem, Default(1.0), args, h), h[|h| - 1].dt)
  }

  function TotalAdvance(sem: Sem<real, real>, args: List<Edn<real>>, h: seq<Input<real, real>>): real {
    if h == [] then 0.0 else TotalAdvance(sem, args, h[..|h| - 1]) + Advance(sem, args, h)
  }

  function Phase(sem: Sem<real, real>, args: List<Edn<real>>, h: seq<Input<real, real>>): real {
    State(sem, PhasorExpr(args), h).0
  }

  lemma {:induction false} PhasorView(m: Transcendentals, args: List<Edn<real>>)
    ensures ViewOf(SemOf(RealOps(m)), PhasorExpr(args))
         == Apply(PrimOf(RealOps(m), Phasor, args), Cons(Default(1.0), Nil), args)
  {
    assert HeadOf(RealOps(m), "phasor", args) == Some(Head(PrimOf(RealOps(m), Phasor, args), Specs(Phasor)));
  }

  function Wrap(p: real): real { if p >= 1.0 then Fraction(p) else p }

  lemma {:induction false} FirePhasor(
    m: Transcendentals, op: Prim<real>, s0: real, s1: real, a: real, inp: Input<real, real>)
    requires op.kind == Phasor
    ensures FireOp(SemOf(RealOps(m)), op, s0, s1, [a], inp).s0 == Wrap(s0 + Distance(a, inp.dt))
  {
    var ops := RealOps(m);
    assert FireOp(SemOf(ops), op, s0, s1, [a], inp) == Fire(ops, op, s0, s1, [a], inp);
    assert At(ops, [a], 0) == a;
  }

  /** One tick adds the advance and wraps at one. */
  lemma {:induction false} PhaseStep(m: Transcendentals, args: List<Edn<real>>, h: seq<Input<real, real>>)
    requires |h| > 0
    ensures var sem := SemOf(RealOps(m));
            Phase(sem, args, h) == Wrap(Phase(sem, args, h[..|h| - 1]) + Advance(sem, args, h))
  {
    var sem := SemOf(RealOps(m));
    var op, specs := PrimOf(RealOps(m), Phasor, args), Cons(Default(1.0), Nil);
    var a := FirstValue(sem, Default(1.0), args, h);
    PhasorView(m, args);
    assert ArgValues(sem, specs, args, h) == [a] by {
      assert ArgValues(sem, Nil, Rest(args), h) == [];
    }
    var s := State(sem, PhasorExpr(args), h[..|h| - 1]);
    assert Phase(sem, args, h) == FireOp(sem, op, s.0, s.1, [a], h[|h| - 1]).s0;
    FirePhasor(m, op, s.0, s.1, a, h[|h| - 1]);
  }

  /** The stored phase and the total advance always differ by an integer, and the phase never reaches one. */
  lemma {:induction false} PhaseCongruent(
    m: Transcendentals, args: List<Edn<real>>, h: seq<Input<real, real>>) returns (turns: int)
    ensures var sem := SemOf(RealOps(m));
            && Phase(sem, args, h) == TotalAdvance(sem, args, h) - turns as real
            && Phase(sem, args, h) < 1.0
    decreases |h|
  {
    if h == [] {
      PhasorView(m, args);
      return 0;
    }
    var sem := SemOf(RealOps(m));
    turns := PhaseCongruent(m, args, h[..|h| - 1]);
    PhaseStep(m, args, h);
    var p := Phase(sem, args, h[..|h| - 1]) + Advance(sem, args, h);
    if p >= 1.0 {
      turns := turns + p.Floor;
    }
  }

  /** If the phasor never runs backwards, its stored phase is the fractional part of the total advance. */
  lemma {:induction false} PhaseIsFraction(m: Transcendentals, args: List<Edn<real>>, h: seq<Input<real, real>>)
    requires forall t :: 0 < t <= |h| ==> Advance(SemOf(RealOps(m)), args, h[..t]) >= 0.0
    ensures var sem := SemOf(RealOps(m)); Phase(sem, args, h) == Fraction(TotalAdvance(sem, args, h))
  {
    var sem := SemOf(RealOps(m));
    var turns := PhaseCongruent(m, args, h);
    PhaseNonNegative(m, args, h);
    assert TotalAdvance(sem, args, h).Floor == turns;
  }

  lemma {:induction false} PhaseNonNegative(m: Transcendentals, args: List<Edn<real>>, h: seq<Input<real, real>>)
    requires forall t :: 0 < t <= |h| ==> Advance(SemOf(RealOps(m)), args, h[..t]) >= 0.0
    ensures Phase(SemOf(RealOps(m)), args, h) >= 0.0
    decreases |h|
  {
    if h == [] {
      PhasorView(m, args);
    } else {
      var h' := h[..|h| - 1];
      forall t | 0 < t <= |h'| ensures Advance(SemOf(RealOps(m)), args, h'[..t]) >= 0.0 {
        assert h'[..t] == h[..t];
      }
      PhaseNonNegative(m, args, h');
      PhaseStep(m, args, h);
      assert h[..|h|] == h;
    }
  }

  /**
   In general, after a tick the stored phase is the fractional part of the total advance if and only if the
   tick did not take the phase below zero, the one case that the code does not wrap.
   */
  lemma {:induction false} PhaseIsFractionExactly(m: Transcendentals, args: List<Edn<real>>, h: seq<Input<real, real>>)
    requires |h| > 0
    ensures var sem := SemOf(RealOps(m));
            Phase(sem, args, h) == Fraction(TotalAdvance(sem, args, h))
            <==> Phase(sem, args, h[..|h| - 1]) + Advance(sem, args, h) >= 0.0
  {
    var sem := SemOf(RealOps(m));
    var turns := PhaseCongruent(m, args, h);
    PhaseStep(m, args, h);
    CongruentFraction(Phase(sem, args, h), TotalAdvance(sem, args, h), turns);
  }

  lemma {:induction false} CongruentFraction(phase: real, total: real, turns: int)
    requires phase == total - turns as real && phase < 1.0
    ensures phase == Fraction(total) <==> phase >= 0.0
  {
    if phase >= 0.0 {
      assert total.Floor == turns;
    }
  }

  /** A phasor running backwards leaves [0, 1): one tick of a quarter turn at rate -1 stores phase -0.25. */
  lemma {:induction false} BackwardsPhasorLeavesRange(m: Transcendentals, inp: Input<real, real>)
    requires inp.dt == 0.25
    ensures Phase(SemOf(RealOps(m)), Cons(Double(-1.0), Nil), [inp]) == -0.25
  {
    var sem, args := SemOf(RealOps(m)), Cons(Double(-1.0), Nil);
    PhasorView(m, args);
    assert [inp][..0] == [];
    assert Value(sem, Double(-1.0), [inp]) == -1.0;
    PhaseStep(m, args, [inp]);
  }
}
