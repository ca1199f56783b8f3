/**
 * Two worked beams, with the solver's answer given as a concrete map: a simply supported
 * beam with a central point load, and a cantilever with a UDL and a point load.
 */
module Scenarios {
  import opened Outcomes
  import opened Singularity
  import opened LinearForms
  import opened Loads
  import opened Equilibrium
  import opened Diagrams
  import opened Reactions

  /** The equations of a three-element list, element by element. */
  lemma Diagrams3(e0: Element, e1: Element, e2: Element, length: real)
    ensures ShearDiagram([e0, e1, e2], length)
         == ShearTerms(e0, length) + ShearTerms(e1, length) + ShearTerms(e2, length)
    ensures MomentDiagram([e0, e1, e2], length)
         == MomentTerms(e0, length) + MomentTerms(e1, length) + MomentTerms(e2, length)
  {
    var l := [e0, e1, e2];
    assert l[..2] == [e0, e1] && [e0, e1][..1] == [e0] && [e0][..0] == [];
    assert ShearDiagram([e0], length) == ShearTerms(e0, length);
    assert ShearDiagram([e0, e1], length) == ShearTerms(e0, length) + ShearTerms(e1, length);
    assert ShearDiagram(l, length) == ShearDiagram([e0, e1], length) + ShearTerms(e2, length);
    assert MomentDiagram([e0], length) == MomentTerms(e0, length);
    assert MomentDiagram([e0, e1], length) == MomentTerms(e0, length) + MomentTerms(e1, length);
    assert MomentDiagram(l, length) == MomentDiagram([e0, e1], length) + MomentTerms(e2, length);
  }

  lemma Value3(s0: seq<MacaulayTerm>, s1: seq<MacaulayTerm>, s2: seq<MacaulayTerm>, x: real)
    ensures Value(s0 + s1 + s2, x) == Value(s0, x) + Value(s1, x) + Value(s2, x)
  {
    ValueAppend(s0 + s1, s2, x);
    ValueAppend(s0, s1, x);
  }

  /** A sum over a two-element list, under `sol`, is the sum of the two parts. */
  lemma EvalTotal2(s: Sum, e0: Element, e1: Element, sol: map<Unknown, real>)
    requires Covers([e0, e1], sol)
    ensures Total(s, [e0, e1]).coef.Keys <= sol.Keys
    ensures Part(s, e0).coef.Keys <= sol.Keys && Part(s, e1).coef.Keys <= sol.Keys
    ensures Eval(Total(s, [e0, e1]), sol) == Eval(Part(s, e0), sol) + Eval(Part(s, e1), sol)
  {
    assert [e0, e1][..1] == [e0] && [e0][..0] == [];
    CoversPrefix([e0, e1], 1, sol);
    EvalSnoc(s, [e0, e1], sol);
    EvalSnoc(s, [e0], sol);
    EvalConst(0.0, sol);
  }

  /** A sum over a three-element list, under `sol`, is the sum of the three parts. */
  lemma EvalTotal3(s: Sum, e0: Element, e1: Element, e2: Element, sol: map<Unknown, real>)
    requires Covers([e0, e1, e2], sol)
    ensures Total(s, [e0, e1, e2]).coef.Keys <= sol.Keys
    ensures Part(s, e0).coef.Keys <= sol.Keys && Part(s, e1).coef.Keys <= sol.Keys
    ensures Part(s, e2).coef.Keys <= sol.Keys
    ensures Eval(Total(s, [e0, e1, e2]), sol)
         == Eval(Part(s, e0), sol) + Eval(Part(s, e1), sol) + Eval(Part(s, e2), sol)
  {
    var l := [e0, e1, e2];
    assert l[..2] == [e0, e1];
    CoversPrefix(l, 2, sol);
    EvalSnoc(s, l, sol);
    EvalTotal2(s, e0, e1, sol);
  }

  /** A support's part of fx under `sol`: its X unknown's value, or 0 for a roller. */
  lemma SupportFx(e: Element, sol: map<Unknown, real>)
    requires e.SupportE? && Named(e.r, sol)
    ensures Eval(Part(Fx, e), sol) == if HasX(e.r.kind) then sol[XOf(e.r)] else 0.0
  {
    NamedComponents(e.r, sol);
    if HasX(e.r.kind) {
      EvalMono(XOf(e.r), 1.0, sol);
    } else {
      EvalConst(0.0, sol);
    }
  }

  /** The reactions of tests/test_pointload.py: 5 kN up at each support. */
  function CentralAnswer(): map<Unknown, real>
  {
    map[Unknown("A", Y) := 5.0, Unknown("B", X) := 0.0, Unknown("B", Y) := 5.0]
  }

  /**
   * tests/test_pointload.py: a 10 m beam on a roller A at 0 and a hinge B at 10 with 10 kN
   * downwards at midspan. With each support carrying 5 kN written back, the shear steps from
   * +5 to -5 at the load and the bending moment peaks at PL/4 = 25 kNm under the load and
   * is 0 at the far support.
   */
  lemma CentralValues(p: PointLoad, a: Reaction, c: Reaction)
    requires p == NewPointLoad(5.0, 10.0, true)
    requires a.pos == 0.0 && a.kind == Roller && a.name == "A" && Written(a, CentralAnswer())
    requires c.pos == 10.0 && c.kind == Pin && c.name == "B" && Written(c, CentralAnswer())
    ensures Value(ShearDiagram([PointE(p), SupportE(a), SupportE(c)], 10.0), 2.0) == 5.0
    ensures Value(ShearDiagram([PointE(p), SupportE(a), SupportE(c)], 10.0), 7.0) == -5.0
    ensures Value(ShearDiagram([PointE(p), SupportE(a), SupportE(c)], 10.0), 10.0) == 0.0
    ensures Value(MomentDiagram([PointE(p), SupportE(a), SupportE(c)], 10.0), 5.0) == 25.0
    ensures Value(MomentDiagram([PointE(p), SupportE(a), SupportE(c)], 10.0), 10.0) == 0.0
  {
    var e0, e1, e2 := PointE(p), SupportE(a), SupportE(c);
    Diagrams3(e0, e1, e2, 10.0);
    Value3(ShearTerms(e0, 10.0), ShearTerms(e1, 10.0), ShearTerms(e2, 10.0), 2.0);
    Value3(ShearTerms(e0, 10.0), ShearTerms(e1, 10.0), ShearTerms(e2, 10.0), 7.0);
    Value3(ShearTerms(e0, 10.0), ShearTerms(e1, 10.0), ShearTerms(e2, 10.0), 10.0);
    Value3(MomentTerms(e0, 10.0), MomentTerms(e1, 10.0), MomentTerms(e2, 10.0), 5.0);
    Value3(MomentTerms(e0, 10.0), MomentTerms(e1, 10.0), MomentTerms(e2, 10.0), 10.0);
    ValueOne(MT(-10.0, 5.0, 0), 2.0);
    ValueOne(MT(-10.0, 5.0, 0), 7.0);
    ValueOne(MT(-10.0, 5.0, 0), 10.0);
    ValueOne(MT(5.0, 0.0, 0), 2.0);
    ValueOne(MT(5.0, 0.0, 0), 7.0);
    ValueOne(MT(5.0, 0.0, 0), 10.0);
    ValueOne(MT(5.0, 10.0, 0), 2.0);
    ValueOne(MT(5.0, 10.0, 0), 7.0);
    ValueOne(MT(5.0, 10.0, 0), 10.0);
    ValueOne(MT(-10.0, 5.0, 1), 5.0);
    ValueOne(MT(-10.0, 5.0, 1), 10.0);
    ValueTwo(MT(5.0, 0.0, 1), MT(-0.0, 0.0, 0), 5.0);
    ValueTwo(MT(5.0, 0.0, 1), MT(-0.0, 0.0, 0), 10.0);
    ValueTwo(MT(5.0, 10.0, 1), MT(-0.0, 10.0, 0), 5.0);
    ValueTwo(MT(5.0, 10.0, 1), MT(-0.0, 10.0, 0), 10.0);
    PowSmall(5.0);
    PowSmall(10.0);
  }

  /**
   * Where both diagrams close at the far end, fy and the moment about 0 vanish: the shear
   * at the end is fy, the moment there is the moment about the end, and that differs from
   * the moment about 0 by the length times fy.
   */
  lemma ClosedAtEnd(loads: seq<Element>, length: real, sol: map<Unknown, real>)
    requires AllOnBeam(loads, length) && Covers(loads, sol) && AllWritten(loads, sol)
    requires Value(ShearDiagram(loads, length), length) == 0.0
    requires Value(MomentDiagram(loads, length), length) == 0.0
    ensures Vanishes(Total(Fy, loads), sol) && Vanishes(Total(Moment(0.0), loads), sol)
  {
    assert Vanishes(Total(Fy, loads), sol) by {
      ShearAtEnd(loads, length, sol);
    }
    assert Vanishes(Total(Moment(length), loads), sol) by {
      MomentAtEnd(loads, length, sol);
    }
    MomentShift(length, loads, sol);
    VanishUnshifted(length, Total(Moment(length), loads), Total(Moment(0.0), loads), Total(Fy, loads), sol);
  }

  /**
   * The answer of tests/test_pointload.py solves the beam's equations: fx, fy and the moment
   * about 0 of the loads and supports all vanish under it.
   */
  lemma CentralBalanced(p: PointLoad, a: Reaction, c: Reaction)
    requires p == NewPointLoad(5.0, 10.0, true)
    requires a.pos == 0.0 && a.kind == Roller && a.name == "A" && Written(a, CentralAnswer())
    requires c.pos == 10.0 && c.kind == Pin && c.name == "B" && Written(c, CentralAnswer())
    ensures Vanishes(Total(Fx, [PointE(p), SupportE(a), SupportE(c)]), CentralAnswer())
    ensures Vanishes(Total(Fy, [PointE(p), SupportE(a), SupportE(c)]), CentralAnswer())
    ensures Vanishes(Total(Moment(0.0), [PointE(p), SupportE(a), SupportE(c)]), CentralAnswer())
  {
    assert p.loadX == 0.0;
    CentralFx(p, a, c);
    CentralValues(p, a, c);
    CentralSetting(p, a, c);
    ClosedAtEnd([PointE(p), SupportE(a), SupportE(c)], 10.0, CentralAnswer());
  }

  /** fx of the central-load beam: a vertical load and no horizontal reaction at the pin. */
  lemma CentralFx(p: PointLoad, a: Reaction, c: Reaction)
    requires p.loadX == 0.0
    requires a.kind == Roller && a.name == "A" && c.kind == Pin && c.name == "B"
    ensures Vanishes(Total(Fx, [PointE(p), SupportE(a), SupportE(c)]), CentralAnswer())
  {
    var sol, e0, e1, e2 := CentralAnswer(), PointE(p), SupportE(a), SupportE(c);
    assert Named(a, sol) && Named(c, sol);
    assert Part(Fx, e0) == Const(0.0);
    EvalConst(0.0, sol);
    EvalTotal3(Fx, e0, e1, e2, sol);
    SupportFx(e1, sol);
    SupportFx(e2, sol);
  }

  /** The central-load beam lies on its 10 m and its supports carry the answer written back. */
  lemma CentralSetting(p: PointLoad, a: Reaction, c: Reaction)
    requires p == NewPointLoad(5.0, 10.0, true)
    requires a.pos == 0.0 && a.kind == Roller && a.name == "A" && Written(a, CentralAnswer())
    requires c.pos == 10.0 && c.kind == Pin && c.name == "B" && Written(c, CentralAnswer())
    ensures AllOnBeam([PointE(p), SupportE(a), SupportE(c)], 10.0)
    ensures Covers([PointE(p), SupportE(a), SupportE(c)], CentralAnswer())
    ensures AllWritten([PointE(p), SupportE(a), SupportE(c)], CentralAnswer())
  {
    assert Named(a, CentralAnswer()) && Named(c, CentralAnswer());
  }

  /** The reactions of Simply_Supported_Beam/test_cantilever.py. */
  function CantileverAnswer(): map<Unknown, real>
  {
    map[Unknown("A", X) := 0.0, Unknown("A", Y) := 150.0, Unknown("A", M) := 1750.0]
  }

  /**
   * Simply_Supported_Beam/test_cantilever.py: a 20 m cantilever fixed at A = 0 with a UDL
   * of 10 kN/m down over [10, 20] and 50 kN down at 5 m. With 150 kN up and a 1750 kNm
   * counter-clockwise moment written back onto the support, the shear at the root is
   * 150 kN and the shear and the bending moment are 0 at the free end.
   */
  lemma CantileverValues(a: Reaction, u: Udl, p: PointLoad)
    requires a.pos == 0.0 && a.kind == Fixed && a.name == "A" && Written(a, CantileverAnswer())
    requires u == NewUdl(10.0, 10.0, 10.0)
    requires p == NewPointLoad(5.0, 50.0, true)
    ensures Value(ShearDiagram([SupportE(a), UdlE(u), PointE(p)], 20.0), 0.0) == 150.0
    ensures Value(ShearDiagram([SupportE(a), UdlE(u), PointE(p)], 20.0), 20.0) == 0.0
    ensures Value(MomentDiagram([SupportE(a), UdlE(u), PointE(p)], 20.0), 20.0) == 0.0
  {
    var e0, e1, e2 := SupportE(a), UdlE(u), PointE(p);
    Diagrams3(e0, e1, e2, 20.0);
    Value3(ShearTerms(e0, 20.0), ShearTerms(e1, 20.0), ShearTerms(e2, 20.0), 0.0);
    Value3(ShearTerms(e0, 20.0), ShearTerms(e1, 20.0), ShearTerms(e2, 20.0), 20.0);
    Value3(MomentTerms(e0, 20.0), MomentTerms(e1, 20.0), MomentTerms(e2, 20.0), 20.0);
    ValueOne(MT(150.0, 0.0, 0), 0.0);
    ValueOne(MT(150.0, 0.0, 0), 20.0);
    ValueOne(MT(-10.0, 10.0, 1), 0.0);
    ValueOne(MT(-10.0, 10.0, 1), 20.0);
    ValueOne(MT(-50.0, 5.0, 0), 0.0);
    ValueOne(MT(-50.0, 5.0, 0), 20.0);
    ValueTwo(MT(150.0, 0.0, 1), MT(-1750.0, 0.0, 0), 20.0);
    ValueOne(MT(-10.0 / 2.0, 10.0, 2), 20.0);
    ValueOne(MT(-50.0, 5.0, 1), 20.0);
    PowSmall(10.0);
    PowSmall(15.0);
    PowSmall(20.0);
  }

  /**
   * The answer of Simply_Supported_Beam/test_cantilever.py solves the beam's equations: fx,
   * fy and the moment about 0 of the support and the two loads all vanish under it.
   */
  lemma CantileverBalanced(a: Reaction, u: Udl, p: PointLoad)
    requires a.pos == 0.0 && a.kind == Fixed && a.name == "A" && Written(a, CantileverAnswer())
    requires u == NewUdl(10.0, 10.0, 10.0)
    requires p == NewPointLoad(5.0, 50.0, true)
    ensures Vanishes(Total(Fx, [SupportE(a), UdlE(u), PointE(p)]), CantileverAnswer())
    ensures Vanishes(Total(Fy, [SupportE(a), UdlE(u), PointE(p)]), CantileverAnswer())
    ensures Vanishes(Total(Moment(0.0), [SupportE(a), UdlE(u), PointE(p)]), CantileverAnswer())
  {
    assert p.loadX == 0.0;
    CantileverFx(a, u, p);
    CantileverValues(a, u, p);
    CantileverSetting(a, u, p);
    ClosedAtEnd([SupportE(a), UdlE(u), PointE(p)], 20.0, CantileverAnswer());
  }

  /** fx of the cantilever: vertical loads and no horizontal reaction at the fixed end. */
  lemma CantileverFx(a: Reaction, u: Udl, p: PointLoad)
    requires a.kind == Fixed && a.name == "A"
    requires p.loadX == 0.0
    ensures Vanishes(Total(Fx, [SupportE(a), UdlE(u), PointE(p)]), CantileverAnswer())
  {
    var sol, e0, e1, e2 := CantileverAnswer(), SupportE(a), UdlE(u), PointE(p);
    assert Named(a, sol);
    assert Part(Fx, e1) == Zero() && Part(Fx, e2) == Const(0.0);
    EvalTotal3(Fx, e0, e1, e2, sol);
    SupportFx(e0, sol);
    EvalConst(0.0, sol);
  }

  /** The cantilever lies on its 20 m and its support carries the answer written back. */
  lemma CantileverSetting(a: Reaction, u: Udl, p: PointLoad)
    requires a.pos == 0.0 && a.kind == Fixed && a.name == "A" && Written(a, CantileverAnswer())
    requires u == NewUdl(10.0, 10.0, 10.0)
    requires p == NewPointLoad(5.0, 50.0, true)
    ensures AllOnBeam([SupportE(a), UdlE(u), PointE(p)], 20.0)
    ensures Covers([SupportE(a), UdlE(u), PointE(p)], CantileverAnswer())
    ensures AllWritten([SupportE(a), UdlE(u), PointE(p)], CantileverAnswer())
  {
    assert Named(a, CantileverAnswer());
  }
}
