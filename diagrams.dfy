/**
 * Macaulay's equations for the shear force and the bending moment. Each element of the load
 * list contributes a few terms coef * <x - origin>^exp; a distributed load that ends before
 * the end of the beam is cancelled from its end onwards by the same load in the opposite
 * direction. The value of a diagram at x is the sum of its terms.
 */
module Diagrams {
  import opened Singularity
  import opened LinearForms
  import opened Loads
  import opened Equilibrium
  import opened Reactions

  /** One term coef * <x - origin>^exp of a Macaulay equation. */
  datatype MacaulayTerm = MT(coef: real, origin: real, exp: nat)

  function TermValue(t: MacaulayTerm, x: real): real
  {
    t.coef * Bracket(x, t.origin, t.exp)
  }

  /** The value at x of a sum of terms. */
  function Value(ts: seq<MacaulayTerm>, x: real): real
    decreases |ts|
  {
    if ts == [] then 0.0 else Value(ts[..|ts| - 1], x) + TermValue(ts[|ts| - 1], x)
  }

  lemma {:induction false} ValueAppend(a: seq<MacaulayTerm>, b: seq<MacaulayTerm>, x: real)
    ensures Value(a + b, x) == Value(a, x) + Value(b, x)
    decreases |b|
  {
    if b == [] {
      assert a + b == a;
    } else {
      var b' := b[..|b| - 1];
      assert (a + b)[..|a + b| - 1] == a + b';
      assert (a + b)[|a + b| - 1] == b[|b| - 1];
      ValueAppend(a, b', x);
    }
  }

  lemma ValueOne(s: MacaulayTerm, x: real)
    ensures Value([s], x) == TermValue(s, x)
  {
  }

  lemma ValueTwo(s: MacaulayTerm, t: MacaulayTerm, x: real)
    ensures Value([s, t], x) == TermValue(s, x) + TermValue(t, x)
  {
    assert [s, t][..1] == [s];
    ValueOne(s, x);
  }

  /** A sum of terms is 0 to the left of all of their origins. */
  lemma {:induction false} ValueBelow(ts: seq<MacaulayTerm>, x: real)
    requires forall i :: 0 <= i < |ts| ==> x < ts[i].origin
    ensures Value(ts, x) == 0.0
    decreases |ts|
  {
    if ts != [] {
      ValueBelow(ts[..|ts| - 1], x);
      SingBelowOrigin(x, ts[|ts| - 1].origin, ts[|ts| - 1].exp);
    }
  }

  // ---------------------------------------------------------------------------------------
  // The terms of one element
  // ---------------------------------------------------------------------------------------

  /** The shear terms of one element: forces as steps, distributed loads as ramps. */
  function ShearTerms(e: Element, length: real): seq<MacaulayTerm>
    reads if e.SupportE? then {e.r} else {}
  {
    match e
    case PointE(p) => [MT(p.loadY, p.pos, 0)]
    case SupportE(r) => [MT(r.ryVal, r.pos, 0)]
    case UdlE(u) =>
      [MT(u.loadpm, u.start, 1)] + (if u.end < length then [MT(-u.loadpm, u.end, 1)] else [])
    case UvlE(v) =>
      [MT(v.startload, v.start, 1), MT(v.gradient / 2.0, v.start, 2)]
      + (if v.end < length then [MT(-v.endload, v.end, 1), MT(-(v.gradient / 2.0), v.end, 2)] else [])
    case _ => []
  }

  /**
   * The moment terms of one element. Every support contributes -momVal times a unit step
   * (a support that is not fixed has momVal 0), and a point moment, counter-clockwise
   * positive, enters with a minus sign.
   */
  function MomentTerms(e: Element, length: real): seq<MacaulayTerm>
    reads if e.SupportE? then {e.r} else {}
  {
    match e
    case PointE(p) => [MT(p.loadY, p.pos, 1)]
    case SupportE(r) => [MT(r.ryVal, r.pos, 1), MT(-r.momVal, r.pos, 0)]
    case MomentE(m) => [MT(-m.mom, m.pos, 0)]
    case UdlE(u) =>
      [MT(u.loadpm / 2.0, u.start, 2)] + (if u.end < length then [MT(-(u.loadpm / 2.0), u.end, 2)] else [])
    case UvlE(v) =>
      [MT(v.startload / 2.0, v.start, 2), MT(v.gradient / 6.0, v.start, 3)]
      + (if v.end < length then [MT(-(v.endload / 2.0), v.end, 2), MT(-(v.gradient / 6.0), v.end, 3)] else [])
    case _ => []
  }

  /** The shear equation of a load list (generate_shear_equation), element by element. */
  function ShearDiagram(loads: seq<Element>, length: real): seq<MacaulayTerm>
    reads SupportSet(loads)
    decreases |loads|
  {
    if loads == [] then []
    else
      var n := |loads| - 1;
      assert SupportSet(loads[..n]) <= SupportSet(loads);
      ShearDiagram(loads[..n], length) + ShearTerms(loads[n], length)
  }

  /** The moment equation of a load list (generate_moment_equation). */
  function MomentDiagram(loads: seq<Element>, length: real): seq<MacaulayTerm>
    reads SupportSet(loads)
    decreases |loads|
  {
    if loads == [] then []
    else
      var n := |loads| - 1;
      assert SupportSet(loads[..n]) <= SupportSet(loads);
      MomentDiagram(loads[..n], length) + MomentTerms(loads[n], length)
  }

  // ---------------------------------------------------------------------------------------
  // Left of every load both diagrams are 0
  // ---------------------------------------------------------------------------------------

  /** The leftmost origin among an element's terms. */
  function Leftmost(e: Element): real
  {
    match e
    case UdlE(u) => Min(u.start, u.end)
    case UvlE(v) => Min(v.start, v.end)
    case _ => Pos(e)
  }

  lemma ShearTermsBelow(e: Element, length: real, x: real)
    requires x < Leftmost(e)
    ensures Value(ShearTerms(e, length), x) == 0.0
  {
    ValueBelow(ShearTerms(e, length), x);
  }

  lemma MomentTermsBelow(e: Element, length: real, x: real)
    requires x < Leftmost(e)
    ensures Value(MomentTerms(e, length), x) == 0.0
  {
    ValueBelow(MomentTerms(e, length), x);
  }

  lemma {:induction false} ShearBelow(loads: seq<Element>, length: real, x: real)
    requires forall i :: 0 <= i < |loads| ==> x < Leftmost(loads[i])
    ensures Value(ShearDiagram(loads, length), x) == 0.0
    decreases |loads|
  {
    if loads != [] {
      var n := |loads| - 1;
      ShearBelow(loads[..n], length, x);
      ShearTermsBelow(loads[n], length, x);
      ValueAppend(ShearDiagram(loads[..n], length), ShearTerms(loads[n], length), x);
    }
  }

  lemma {:induction false} MomentBelow(loads: seq<Element>, length: real, x: real)
    requires forall i :: 0 <= i < |loads| ==> x < Leftmost(loads[i])
    ensures Value(MomentDiagram(loads, length), x) == 0.0
    decreases |loads|
  {
    if loads != [] {
      var n := |loads| - 1;
      MomentBelow(loads[..n], length, x);
      MomentTermsBelow(loads[n], length, x);
      ValueAppend(MomentDiagram(loads[..n], length), MomentTerms(loads[n], length), x);
    }
  }

  // ---------------------------------------------------------------------------------------
  // Past its end a distributed load acts as its resultant
  // ---------------------------------------------------------------------------------------

  lemma BracketLinear(x: real, a: real)
    requires a <= x
    ensures Bracket(x, a, 0) == 1.0 && Bracket(x, a, 1) == x - a
  {
    SingPower(x, a, 0);
    SingPower(x, a, 1);
    PowSmall(x - a);
  }

  lemma BracketSquare(x: real, a: real)
    requires a <= x
    ensures Bracket(x, a, 2) == (x - a) * (x - a)
  {
    SingPower(x, a, 2);
    PowSmall(x - a);
  }

  lemma BracketCube(x: real, a: real)
    requires a <= x
    ensures Bracket(x, a, 3) == (x - a) * (x - a) * (x - a)
  {
    SingPower(x, a, 3);
    PowSmall(x - a);
  }

  lemma GradientTimes(w0: real, w1: real, span: real)
    requires span != 0.0
    ensures w1 == w0 + Gradient(w0, w1, span) * span
  {
  }

  lemma UdlShearArith(w: real, L: real, d: real, d': real)
    requires d' == d - L
    ensures w * d + -w * d' == w * L
  {
  }

  lemma UdlMomentArith(w: real, L: real, d: real, d': real)
    requires d' == d - L
    ensures w / 2.0 * (d * d) + -(w / 2.0) * (d' * d') == w * L * (d - L / 2.0)
  {
  }

  /** n * (x - pos) == n * (x - s) - n * (pos - s). */
  lemma ArmSplit(n: real, x: real, pos: real, s: real, q: real)
    requires n * (pos - s) == q
    ensures n * (x - pos) == n * (x - s) - q
  {
  }

  /** The value of two terms with a common origin a <= x. */
  lemma ValueRamp(c1: real, c2: real, a: real, x: real)
    requires a <= x
    ensures Value([MT(c1, a, 1), MT(c2, a, 2)], x) == c1 * (x - a) + c2 * ((x - a) * (x - a))
  {
    ValueTwo(MT(c1, a, 1), MT(c2, a, 2), x);
    BracketLinear(x, a);
    BracketSquare(x, a);
  }

  lemma ValueParabola(c2: real, c3: real, a: real, x: real)
    requires a <= x
    ensures Value([MT(c2, a, 2), MT(c3, a, 3)], x) == c2 * ((x - a) * (x - a)) + c3 * ((x - a) * (x - a) * (x - a))
  {
    ValueTwo(MT(c2, a, 2), MT(c3, a, 3), x);
    BracketSquare(x, a);
    BracketCube(x, a);
  }

  /** Anywhere from its end to the end of the beam, a UDL's shear terms add up to its resultant. */
  lemma UdlShearPast(u: Udl, length: real, x: real)
    requires ValidUdl(u) && u.end <= x <= length
    ensures Value(ShearTerms(UdlE(u), length), x) == u.netload
  {
    var w, d, d' := u.loadpm, x - u.start, x - u.end;
    BracketLinear(x, u.start);
    BracketLinear(x, u.end);
    UdlShearArith(w, u.span, d, d');
    if u.end < length {
      ValueTwo(MT(w, u.start, 1), MT(-w, u.end, 1), x);
    } else {
      assert ShearTerms(UdlE(u), length) == [MT(w, u.start, 1)];
      assert d' == 0.0;
    }
  }

  /** From its end on, a UDL's moment terms are its resultant times its arm x - pos. */
  lemma UdlMomentPast(u: Udl, length: real, x: real)
    requires ValidUdl(u) && u.end <= x <= length
    ensures Value(MomentTerms(UdlE(u), length), x) == u.netload * (x - u.pos)
  {
    var w, d, d' := u.loadpm, x - u.start, x - u.end;
    BracketSquare(x, u.start);
    BracketSquare(x, u.end);
    UdlMomentArith(w, u.span, d, d');
    assert x - u.pos == d - u.span / 2.0;
    if u.end < length {
      ValueTwo(MT(w / 2.0, u.start, 2), MT(-(w / 2.0), u.end, 2), x);
    } else {
      assert MomentTerms(UdlE(u), length) == [MT(w / 2.0, u.start, 2)];
      assert d' == 0.0;
    }
  }

  /** A load's terms are its opening terms, followed by its closing terms unless these are 0 at x. */
  lemma Cancelled(ts: seq<MacaulayTerm>, opening: seq<MacaulayTerm>, closing: seq<MacaulayTerm>, x: real, total: real)
    requires ts == opening + closing || (ts == opening && Value(closing, x) == 0.0)
    requires Value(opening, x) + Value(closing, x) == total
    ensures Value(ts, x) == total
  {
    if ts == opening + closing {
      ValueAppend(opening, closing, x);
    }
  }

  lemma ZeroArm(c1: real, c2: real, d: real)
    requires d == 0.0
    ensures c1 * d + c2 * (d * d) == 0.0 && c1 * (d * d) + c2 * (d * d * d) == 0.0
  {
  }

  /** From e on, the opening and the closing shear terms of a UVL as polynomials in x. */
  lemma UvlShearTerms(w0: real, w1: real, g: real, s: real, e: real, x: real)
    requires s <= e <= x
    ensures Value([MT(w0, s, 1), MT(g / 2.0, s, 2)], x) + Value([MT(-w1, e, 1), MT(-(g / 2.0), e, 2)], x)
         == (w0 * (x - s) + g / 2.0 * ((x - s) * (x - s))) + (-w1 * (x - e) + -(g / 2.0) * ((x - e) * (x - e)))
  {
    ValueRamp(w0, g / 2.0, s, x);
    ValueRamp(-w1, -(g / 2.0), e, x);
  }

  /** The opening and the closing shear polynomials of a UVL add up to its resultant. */
  lemma UvlShearSum(w0: real, w1: real, g: real, L: real, s: real, e: real, x: real)
    requires w1 == w0 + g * L && e == s + L
    ensures (w0 * (x - s) + g / 2.0 * ((x - s) * (x - s))) + (-w1 * (x - e) + -(g / 2.0) * ((x - e) * (x - e)))
         == L * (w0 + w1) / 2.0
  {
  }

  lemma UvlShearClosing(w1: real, g: real, e: real)
    ensures Value([MT(-w1, e, 1), MT(-(g / 2.0), e, 2)], e) == 0.0
  {
    ValueRamp(-w1, -(g / 2.0), e, e);
    ZeroArm(-w1, -(g / 2.0), e - e);
  }

  /** From e on, the opening and the closing moment terms of a UVL as polynomials in x. */
  lemma UvlMomentTerms(w0: real, w1: real, g: real, s: real, e: real, x: real)
    requires s <= e <= x
    ensures Value([MT(w0 / 2.0, s, 2), MT(g / 6.0, s, 3)], x) + Value([MT(-(w1 / 2.0), e, 2), MT(-(g / 6.0), e, 3)], x)
         == (w0 / 2.0 * ((x - s) * (x - s)) + g / 6.0 * ((x - s) * (x - s) * (x - s)))
          + (-(w1 / 2.0) * ((x - e) * (x - e)) + -(g / 6.0) * ((x - e) * (x - e) * (x - e)))
  {
    ValueParabola(w0 / 2.0, g / 6.0, s, x);
    ValueParabola(-(w1 / 2.0), -(g / 6.0), e, x);
  }

  /**
   * The opening and the closing moment polynomials of a UVL: its resultant times x - s, less
   * its first moment L^2 (w0 + 2 w1) / 6 about s.
   */
  lemma UvlMomentSum(w0: real, w1: real, g: real, L: real, s: real, e: real, x: real)
    requires w1 == w0 + g * L && e == s + L
    ensures (w0 / 2.0 * ((x - s) * (x - s)) + g / 6.0 * ((x - s) * (x - s) * (x - s)))
          + (-(w1 / 2.0) * ((x - e) * (x - e)) + -(g / 6.0) * ((x - e) * (x - e) * (x - e)))
         == L * (w0 + w1) / 2.0 * (x - s) - L * L * (w0 + 2.0 * w1) / 6.0
  {
  }

  lemma UvlMomentClosing(w1: real, g: real, e: real)
    ensures Value([MT(-(w1 / 2.0), e, 2), MT(-(g / 6.0), e, 3)], e) == 0.0
  {
    ValueParabola(-(w1 / 2.0), -(g / 6.0), e, e);
    ZeroArm(-(w1 / 2.0), -(g / 6.0), e - e);
  }

  /** From the end e = s + L on, all four shear terms of a UVL add up to its resultant. */
  lemma UvlShearValue(w0: real, w1: real, g: real, L: real, s: real, e: real, x: real)
    requires L > 0.0 && g == Gradient(w0, w1, L) && e == s + L && e <= x
    ensures Value([MT(w0, s, 1), MT(g / 2.0, s, 2)], x) + Value([MT(-w1, e, 1), MT(-(g / 2.0), e, 2)], x)
         == Resultant(w0, w1, L)
  {
    UvlShearTerms(w0, w1, g, s, e, x);
    GradientTimes(w0, w1, L);
    UvlShearSum(w0, w1, g, L, s, e, x);
  }

  /** From the end e = s + L on, all four moment terms of a UVL. */
  lemma UvlMomentValue(w0: real, w1: real, g: real, L: real, s: real, e: real, x: real)
    requires L > 0.0 && g == Gradient(w0, w1, L) && e == s + L && e <= x
    ensures Value([MT(w0 / 2.0, s, 2), MT(g / 6.0, s, 3)], x) + Value([MT(-(w1 / 2.0), e, 2), MT(-(g / 6.0), e, 3)], x)
         == Resultant(w0, w1, L) * (x - s) - L * L * (w0 + 2.0 * w1) / 6.0
  {
    UvlMomentTerms(w0, w1, g, s, e, x);
    GradientTimes(w0, w1, L);
    UvlMomentSum(w0, w1, g, L, s, e, x);
  }

  /**
   * From the end on, the four moment terms of a UVL are its resultant n times the arm x - pos,
   * when n placed at pos has the UVL's first moment about s.
   */
  lemma UvlMomentArm(w0: real, w1: real, g: real, L: real, s: real, e: real, x: real, n: real, pos: real)
    requires L > 0.0 && g == Gradient(w0, w1, L) && e == s + L && e <= x
    requires n == Resultant(w0, w1, L) && n * (pos - s) == L * L * (w0 + 2.0 * w1) / 6.0
    ensures Value([MT(w0 / 2.0, s, 2), MT(g / 6.0, s, 3)], x) + Value([MT(-(w1 / 2.0), e, 2), MT(-(g / 6.0), e, 3)], x)
         == n * (x - pos)
  {
    UvlMomentValue(w0, w1, g, L, s, e, x);
    ArmSplit(n, x, pos, s, L * L * (w0 + 2.0 * w1) / 6.0);
  }

  /** FirstMoment, for the fields of a UVL. */
  lemma UvlFirstMoment(v: Uvl)
    requires v.span > 0.0 && SameSign(v.startload, v.endload)
    requires Resultant(v.startload, v.endload, v.span) != 0.0
    requires v.netload == Resultant(v.startload, v.endload, v.span)
    requires v.pos == ResultantPos(v.start, v.startload, v.endload, v.span)
    ensures v.netload * (v.pos - v.start) == v.span * v.span * (v.startload + 2.0 * v.endload) / 6.0
  {
    FirstMomentAt(v.start, v.startload, v.endload, v.span, v.netload, v.pos);
  }

  lemma FirstMomentAt(s: real, w0: real, w1: real, L: real, n: real, pos: real)
    requires L > 0.0 && SameSign(w0, w1) && Resultant(w0, w1, L) != 0.0
    requires n == Resultant(w0, w1, L) && pos == ResultantPos(s, w0, w1, L)
    ensures n * (pos - s) == L * L * (w0 + 2.0 * w1) / 6.0
  {
    FirstMoment(s, w0, w1, L);
  }

  /** Anywhere from its end to the end of the beam, a UVL's shear terms add up to its resultant. */
  lemma UvlShearPast(v: Uvl, length: real, x: real)
    requires v.span > 0.0 && v.end == v.start + v.span && v.gradient == Gradient(v.startload, v.endload, v.span)
    requires v.netload == Resultant(v.startload, v.endload, v.span)
    requires v.end <= x <= length
    ensures Value(ShearTerms(UvlE(v), length), x) == v.netload
  {
    var w0, w1, g := v.startload, v.endload, v.gradient;
    UvlShearValue(w0, w1, g, v.span, v.start, v.end, x);
    if v.end == length {
      UvlShearClosing(w1, g, v.end);
    }
    Cancelled(ShearTerms(UvlE(v), length), [MT(w0, v.start, 1), MT(g / 2.0, v.start, 2)],
              [MT(-w1, v.end, 1), MT(-(g / 2.0), v.end, 2)], x, v.netload);
  }

  /**
   * From its end on, the moment terms of a UVL whose end loads have one sign are its
   * resultant times its arm x - pos.
   */
  lemma UvlMomentPast(v: Uvl, length: real, x: real)
    requires ValidUvl(v) && SameSign(v.startload, v.endload) && v.end <= x <= length
    ensures Value(MomentTerms(UvlE(v), length), x) == v.netload * (x - v.pos)
  {
    UvlFirstMoment(v);
    UvlMomentBalanced(v, length, x);
  }

  /**
   * The fields of a UVL whose resultant, acting at pos, has the first moment of the load
   * about its start (the constructor gives this when the end loads have one sign).
   */
  predicate UvlBalanced(v: Uvl)
  {
    && v.span > 0.0 && v.end == v.start + v.span
    && v.gradient == Gradient(v.startload, v.endload, v.span)
    && v.netload == Resultant(v.startload, v.endload, v.span)
    && v.netload * (v.pos - v.start) == v.span * v.span * (v.startload + 2.0 * v.endload) / 6.0
  }

  lemma UvlSameSignBalanced(v: Uvl)
    requires ValidUvl(v) && SameSign(v.startload, v.endload)
    ensures UvlBalanced(v)
  {
    UvlFirstMoment(v);
  }

  /** The same, for any balanced UVL. */
  lemma UvlMomentBalanced(v: Uvl, length: real, x: real)
    requires UvlBalanced(v) && v.end <= x <= length
    ensures Value(MomentTerms(UvlE(v), length), x) == v.netload * (x - v.pos)
  {
    var w0, w1, g, L := v.startload, v.endload, v.gradient, v.span;
    UvlMomentArm(w0, w1, g, L, v.start, v.end, x, v.netload, v.pos);
    if v.end == length {
      UvlMomentClosing(w1, g, v.end);
    }
    Cancelled(MomentTerms(UvlE(v), length), [MT(w0 / 2.0, v.start, 2), MT(g / 6.0, v.start, 3)],
              [MT(-(w1 / 2.0), v.end, 2), MT(-(g / 6.0), v.end, 3)], x, v.netload * (x - v.pos));
  }

  /**
   * For end loads of opposite signs the position the UVL constructor computes is not where
   * the resultant acts: with start load 3 and end load -5 over 10 m, pos is 125/3 (beyond the
   * loaded length) and at the end of a 10 m beam the moment terms give 50/3, not
   * netload * (10 - pos) = 950/3.
   */
  lemma UvlMixedSign()
    ensures NewUvl(0.0, 3.0, 10.0, -5.0, false).Ok?
    ensures var v := NewUvl(0.0, 3.0, 10.0, -5.0, false).value;
      && v.netload == -10.0 && v.pos == 125.0 / 3.0
      && Value(MomentTerms(UvlE(v), 10.0), 10.0) == 50.0 / 3.0
      && v.netload * (10.0 - v.pos) == 950.0 / 3.0
  {
    var v := NewUvl(0.0, 3.0, 10.0, -5.0, false).value;
    assert v.gradient == -0.8;
    assert MomentTerms(UvlE(v), 10.0) == [MT(1.5, 0.0, 2), MT(-0.8 / 6.0, 0.0, 3)];
    ValueParabola(1.5, -0.8 / 6.0, 0.0, 10.0);
  }

  // ---------------------------------------------------------------------------------------
  // At the end of the beam the diagrams close
  // ---------------------------------------------------------------------------------------

  /** Every support in the list holds its values from `sol`. */
  ghost predicate AllWritten(loads: seq<Element>, sol: map<Unknown, real>)
    reads SupportSet(loads)
  {
    forall i :: 0 <= i < |loads| && loads[i].SupportE? ==> Written(loads[i].r, sol)
  }

  /** An element that lies on a beam of this length, with the fields its constructor gives it. */
  predicate OnBeam(e: Element, length: real)
  {
    match e
    case UdlE(u) => ValidUdl(u) && u.end <= length
    case UvlE(v) => UvlBalanced(v) && v.end <= length
    case _ => Pos(e) <= length
  }

  /** w (x - pos) == -((pos - x) w). */
  lemma NegArm(w: real, pos: real, x: real)
    ensures w * (x - pos) == -((pos - x) * w)
  {
  }

  lemma PointShearAtEnd(e: Element, length: real, sol: map<Unknown, real>)
    requires e.PointE? && e.p.pos <= length
    ensures Value(ShearTerms(e, length), length) == Eval(Part(Fy, e), sol)
  {
    ValueOne(MT(e.p.loadY, e.p.pos, 0), length);
    BracketLinear(length, e.p.pos);
  }

  lemma SupportShearAtEnd(e: Element, length: real, sol: map<Unknown, real>)
    requires e.SupportE? && e.r.pos <= length && Written(e.r, sol)
    ensures Part(Fy, e).coef.Keys <= sol.Keys
    ensures Value(ShearTerms(e, length), length) == Eval(Part(Fy, e), sol)
  {
    SupportForcePart(e);
    EvalMono(YOf(e.r), 1.0, sol);
    ValueOne(MT(e.r.ryVal, e.r.pos, 0), length);
    BracketLinear(length, e.r.pos);
  }

  /** At the end of the beam an element's shear terms add up to its part of the vertical sum. */
  lemma ElementShearAtEnd(e: Element, length: real, sol: map<Unknown, real>)
    requires OnBeam(e, length) && (e.SupportE? ==> Written(e.r, sol))
    ensures Part(Fy, e).coef.Keys <= sol.Keys
    ensures Value(ShearTerms(e, length), length) == Eval(Part(Fy, e), sol)
  {
    match e
    case PointE(_) => PointShearAtEnd(e, length, sol);
    case SupportE(_) => SupportShearAtEnd(e, length, sol);
    case UdlE(u) => UdlShearPast(u, length, length);
    case UvlE(v) => UvlShearPast(v, length, length);
    case MomentE(_) =>
    case HingeE(_) =>
    case LoadE(_) =>
  }

  lemma PointMomentAtEnd(e: Element, length: real, sol: map<Unknown, real>)
    requires e.PointE? && e.p.pos <= length
    ensures Value(MomentTerms(e, length), length) == -Eval(Part(Moment(length), e), sol)
  {
    ValueOne(MT(e.p.loadY, e.p.pos, 1), length);
    BracketLinear(length, e.p.pos);
    NegArm(e.p.loadY, e.p.pos, length);
  }

  lemma CoupleAtEnd(e: Element, length: real, sol: map<Unknown, real>)
    requires e.MomentE? && e.m.pos <= length
    ensures Value(MomentTerms(e, length), length) == -Eval(Part(Moment(length), e), sol)
  {
    ValueOne(MT(-e.m.mom, e.m.pos, 0), length);
    BracketLinear(length, e.m.pos);
  }

  lemma CoupleValue(r: Reaction, sol: map<Unknown, real>)
    requires Written(r, sol)
    ensures SupportCouple(r).coef.Keys <= sol.Keys
    ensures Eval(SupportCouple(r), sol) == r.momVal
  {
    if HasM(r.kind) {
      EvalMono(MOf(r), 1.0, sol);
    }
  }

  /** The unknown y with coefficient arm, under `sol`, is minus the arm of the closing term. */
  lemma SupportArmAt(ts: seq<MacaulayTerm>, y: Unknown, sol: map<Unknown, real>, ry: real, mom: real,
                     pos: real, length: real)
    requires pos <= length && ts == [MT(ry, pos, 1), MT(-mom, pos, 0)] && y in sol && sol[y] == ry
    ensures Value(ts, length) == -Eval(Mono(y, pos - length), sol) + -mom
  {
    var arm := pos - length;
    ValueTwo(MT(ry, pos, 1), MT(-mom, pos, 0), length);
    BracketLinear(length, pos);
    NegArm(ry, pos, length);
    EvalMono(y, arm, sol);
  }

  /** A support's moment about the end of the beam under `sol`: its force term plus its couple. */
  lemma SupportMomentValue(e: Element, length: real, sol: map<Unknown, real>)
    requires e.SupportE? && Written(e.r, sol)
    ensures Part(Moment(length), e).coef.Keys <= sol.Keys
    ensures Eval(Part(Moment(length), e), sol)
         == Eval(Mono(YOf(e.r), e.r.pos - length), sol) + e.r.momVal
  {
    SupportMomentPart(length, e);
    CoupleValue(e.r, sol);
    EvalMono(YOf(e.r), e.r.pos - length, sol);
    EvalPlus(Mono(YOf(e.r), e.r.pos - length), SupportCouple(e.r), sol);
  }

  lemma SupportMomentAtEnd(e: Element, length: real, sol: map<Unknown, real>)
    requires e.SupportE? && e.r.pos <= length && Written(e.r, sol)
    ensures Part(Moment(length), e).coef.Keys <= sol.Keys
    ensures Value(MomentTerms(e, length), length) == -Eval(Part(Moment(length), e), sol)
  {
    var r := e.r;
    SupportMomentValue(e, length, sol);
    assert MomentTerms(e, length) == [MT(r.ryVal, r.pos, 1), MT(-r.momVal, r.pos, 0)];
    SupportArmAt(MomentTerms(e, length), YOf(r), sol, r.ryVal, r.momVal, r.pos, length);
  }

  lemma UdlMomentAtEnd(e: Element, length: real, sol: map<Unknown, real>)
    requires e.UdlE? && ValidUdl(e.u) && e.u.end <= length
    ensures Value(MomentTerms(e, length), length) == -Eval(Part(Moment(length), e), sol)
  {
    var u := e.u;
    assert Value(MomentTerms(e, length), length) == u.netload * (length - u.pos) by {
      UdlMomentPast(u, length, length);
    }
    assert Eval(Part(Moment(length), e), sol) == (u.pos - length) * u.netload;
    NegArm(u.netload, u.pos, length);
  }

  lemma UvlMomentBridge(e: Element, length: real, x: real)
    requires e.UvlE? && UvlBalanced(e.v) && e.v.end <= x <= length
    ensures Value(MomentTerms(e, length), x) == e.v.netload * (x - e.v.pos)
  {
    var v := e.v;
    assert MomentTerms(e, length) == MomentTerms(UvlE(v), length);
    UvlMomentBalanced(v, length, x);
  }

  lemma UvlMomentAtEnd(e: Element, length: real, sol: map<Unknown, real>)
    requires e.UvlE? && UvlBalanced(e.v) && e.v.end <= length
    ensures Value(MomentTerms(e, length), length) == -Eval(Part(Moment(length), e), sol)
  {
    UvlMomentBridge(e, length, length);
    UvlResultantAtEnd(e, length, sol);
  }

  lemma UvlResultantAtEnd(e: Element, length: real, sol: map<Unknown, real>)
    requires e.UvlE? && Value(MomentTerms(e, length), length) == e.v.netload * (length - e.v.pos)
    ensures Value(MomentTerms(e, length), length) == -Eval(Part(Moment(length), e), sol)
  {
    var v := e.v;
    assert Eval(Part(Moment(length), e), sol) == (v.pos - length) * v.netload;
    NegArm(v.netload, v.pos, length);
  }

  /** At the end of the beam an element's moment terms are minus its moment about that end. */
  lemma ElementMomentAtEnd(e: Element, length: real, sol: map<Unknown, real>)
    requires OnBeam(e, length) && (e.SupportE? ==> Written(e.r, sol))
    ensures Part(Moment(length), e).coef.Keys <= sol.Keys
    ensures Value(MomentTerms(e, length), length) == -Eval(Part(Moment(length), e), sol)
  {
    match e
    case PointE(_) => PointMomentAtEnd(e, length, sol);
    case SupportE(_) => SupportMomentAtEnd(e, length, sol);
    case MomentE(_) => CoupleAtEnd(e, length, sol);
    case UdlE(_) => UdlMomentAtEnd(e, length, sol);
    case UvlE(v) => UvlMomentAtEnd(e, length, sol);
    case HingeE(_) =>
    case LoadE(_) =>
  }

  /** Every element of the list lies on the beam. */
  predicate AllOnBeam(loads: seq<Element>, length: real)
  {
    forall i :: 0 <= i < |loads| ==> OnBeam(loads[i], length)
  }

  /**
   * At the end of the beam the shear equation adds up to the vertical force sum of the
   * loads, evaluated at the solved reactions.
   */
  lemma {:induction false} ShearAtEnd(loads: seq<Element>, length: real, sol: map<Unknown, real>)
    requires AllOnBeam(loads, length) && Covers(loads, sol) && AllWritten(loads, sol)
    ensures Total(Fy, loads).coef.Keys <= sol.Keys
    ensures Value(ShearDiagram(loads, length), length) == Eval(Total(Fy, loads), sol)
    decreases |loads|
  {
    TotalKeys(Fy, loads, sol);
    if loads == [] {
      EvalConst(0.0, sol);
    } else {
      var n := |loads| - 1;
      var e := loads[n];
      CoversPrefix(loads, n, sol);
      assert AllWritten(loads[..n], sol);
      assert AllOnBeam(loads[..n], length);
      ShearAtEnd(loads[..n], length, sol);
      assert Value(ShearTerms(e, length), length) == Eval(Part(Fy, e), sol) by {
        ElementShearAtEnd(e, length, sol);
      }
      EvalSnoc(Fy, loads, sol);
      ValueAppend(ShearDiagram(loads[..n], length), ShearTerms(e, length), length);
    }
  }

  /**
   * At the end of the beam the moment equation is minus the moment sum of the loads about
   * that end, evaluated at the solved reactions.
   */
  lemma {:induction false} MomentAtEnd(loads: seq<Element>, length: real, sol: map<Unknown, real>)
    requires AllOnBeam(loads, length) && Covers(loads, sol) && AllWritten(loads, sol)
    ensures Total(Moment(length), loads).coef.Keys <= sol.Keys
    ensures Value(MomentDiagram(loads, length), length) == -Eval(Total(Moment(length), loads), sol)
    decreases |loads|
  {
    TotalKeys(Moment(length), loads, sol);
    if loads == [] {
      EvalConst(0.0, sol);
    } else {
      var n := |loads| - 1;
      var e := loads[n];
      CoversPrefix(loads, n, sol);
      assert AllWritten(loads[..n], sol);
      assert AllOnBeam(loads[..n], length);
      MomentAtEnd(loads[..n], length, sol);
      assert Value(MomentTerms(e, length), length) == -Eval(Part(Moment(length), e), sol) by {
        ElementMomentAtEnd(e, length, sol);
      }
      EvalSnoc(Moment(length), loads, sol);
      ValueAppend(MomentDiagram(loads[..n], length), MomentTerms(e, length), length);
    }
  }

  /**
   * With reactions that balance the beam (vertical forces and moments about the left end
   * vanish), the shear and the moment diagrams both return to 0 at the end of the beam.
   */
  lemma DiagramsClose(loads: seq<Element>, length: real, sol: map<Unknown, real>)
    requires AllOnBeam(loads, length) && Covers(loads, sol) && AllWritten(loads, sol)
    requires Vanishes(Total(Fy, loads), sol) && Vanishes(Total(Moment(0.0), loads), sol)
    ensures Value(ShearDiagram(loads, length), length) == 0.0
    ensures Value(MomentDiagram(loads, length), length) == 0.0
  {
    ShearAtEnd(loads, length, sol);
    MomentAnywhere(length, loads, sol);
    MomentAtEnd(loads, length, sol);
  }
}
