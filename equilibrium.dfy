/**
 * The four equilibrium sums a beam accumulates: horizontal forces (fx), vertical forces (fy),
 * moments about a point (m) and moments about an internal hinge of the loads on one side of
 * it (m_hinge). Each is the sum, over the load list, of one element's contribution.
 */
module Equilibrium {
  import opened LinearForms
  import opened Loads

  datatype Sum = Fx | Fy | Moment(about: real) | HingeMoment(hinge: Hinge)

  /** The element lies strictly on the side of the hinge that `side[0]` names. */
  predicate OnSide(e: Element, h: Hinge)
  {
    if |h.side| > 0 && h.side[0] == 'l' then Pos(e) < h.pos else Pos(e) > h.pos
  }

  /** The Y unknown of a support. */
  function YOf(r: Reaction): Unknown { Unknown(r.name, Y) }

  function XOf(r: Reaction): Unknown { Unknown(r.name, X) }

  function MOf(r: Reaction): Unknown { Unknown(r.name, M) }

  /** A fixed support's moment unknown: the part of its moment that does not depend on the centre. */
  function SupportCouple(r: Reaction): (f: LinearForm)
    ensures Canonical(f)
  {
    if HasM(r.kind) then Mono(MOf(r), 1.0) else Zero()
  }

  /**
   * The moment of an element about `a`, counter-clockwise positive: a force times its arm
   * (pos - a), a point moment as it is, and a fixed support's moment unknown.
   */
  function MomentPart(a: real, e: Element): (f: LinearForm)
    ensures Canonical(f)
  {
    match e
    case PointE(p) => Const((p.pos - a) * p.loadY)
    case UdlE(u) => Const((u.pos - a) * u.netload)
    case UvlE(v) => Const((v.pos - a) * v.netload)
    case SupportE(r) => Plus(Mono(YOf(r), r.pos - a), SupportCouple(r))
    case MomentE(m) => Const(m.mom)
    case _ => Zero()
  }

  /** What one element adds to a sum. */
  function Part(s: Sum, e: Element): (f: LinearForm)
    ensures Canonical(f)
  {
    match s
    case Fx =>
      (match e
       case PointE(p) => Const(p.loadX)
       case SupportE(r) => if HasX(r.kind) then Mono(XOf(r), 1.0) else Zero()
       case _ => Zero())
    case Fy =>
      (match e
       case PointE(p) => Const(p.loadY)
       case SupportE(r) => Mono(YOf(r), 1.0)
       case UdlE(u) => Const(u.netload)
       case UvlE(v) => Const(v.netload)
       case _ => Zero())
    case Moment(a) => MomentPart(a, e)
    case HingeMoment(h) => if OnSide(e, h) then MomentPart(h.pos, e) else Zero()
  }

  /** The sum over a load list, added up from the front as the loops do. */
  function Total(s: Sum, loads: seq<Element>): (f: LinearForm)
    ensures Canonical(f)
    decreases |loads|
  {
    if loads == [] then Zero()
    else Plus(Total(s, loads[..|loads| - 1]), Part(s, loads[|loads| - 1]))
  }

  lemma TotalSnoc(s: Sum, loads: seq<Element>, e: Element)
    ensures Total(s, loads + [e]) == Plus(Total(s, loads), Part(s, e))
  {
    assert (loads + [e])[..|loads|] == loads;
  }

  /** The sum over a concatenation is the sum of the sums. */
  lemma {:induction false} TotalAppend(s: Sum, a: seq<Element>, b: seq<Element>)
    ensures Total(s, a + b) == Plus(Total(s, a), Total(s, b))
    decreases |b|
  {
    if b == [] {
      assert a + b == a;
      PlusZero(Total(s, a));
    } else {
      var b', e := b[..|b| - 1], b[|b| - 1];
      assert a + b == (a + b') + [e];
      assert b == b' + [e];
      TotalSnoc(s, a + b', e);
      TotalSnoc(s, b', e);
      TotalAppend(s, a, b');
      PlusAssoc(Total(s, a), Total(s, b'), Part(s, e));
    }
  }

  /** The sums do not depend on the order of the load list. */
  lemma {:induction false} TotalPermutation(s: Sum, a: seq<Element>, b: seq<Element>)
    requires multiset(a) == multiset(b)
    ensures Total(s, a) == Total(s, b)
    decreases |a|
  {
    if a == [] {
      assert |b| == |multiset(b)| == 0;
    } else {
      var a', e := a[..|a| - 1], a[|a| - 1];
      assert a == a' + [e];
      assert e in multiset(b);
      var j :| 0 <= j < |b| && b[j] == e;
      var left, right := b[..j], b[j + 1..];
      assert b == left + [e] + right;
      RemoveOne(a', e, left, right);
      TotalPermutation(s, a', left + right);
      TotalAppend(s, left, right);
      TotalAppend(s, left + [e], right);
      TotalSnoc(s, left, e);
      TotalSnoc(s, a', e);
      PlusMove(Total(s, left), Part(s, e), Total(s, right));
    }
  }

  lemma RemoveOne<T>(a: seq<T>, e: T, left: seq<T>, right: seq<T>)
    requires multiset(a + [e]) == multiset(left + [e] + right)
    ensures multiset(a) == multiset(left + right)
  {
    var A, B := multiset(a), multiset(left + right);
    assert A + multiset{e} == B + multiset{e} by {
      assert multiset(a + [e]) == A + multiset{e};
      assert multiset(left + [e] + right) == multiset(left) + multiset{e} + multiset(right);
      assert B == multiset(left) + multiset(right);
    }
    forall x
      ensures A[x] == B[x]
    {
      assert (A + multiset{e})[x] == (B + multiset{e})[x];
    }
    assert A == B;
  }

  /** (p + e) + q == (p + q) + e. */
  lemma PlusMove(p: LinearForm, e: LinearForm, q: LinearForm)
    ensures Plus(Plus(p, e), q) == Plus(Plus(p, q), e)
  {
    Ext(Plus(Plus(p, e), q), Plus(Plus(p, q), e));
  }

  // ---------------------------------------------------------------------------------------
  // Reference definitions of the force sums
  // ---------------------------------------------------------------------------------------

  /** The known horizontal force: the load_x of every point load. */
  function HorizontalLoad(loads: seq<Element>): real
    decreases |loads|
  {
    if loads == [] then 0.0
    else
      var e := loads[|loads| - 1];
      HorizontalLoad(loads[..|loads| - 1]) + (if e.PointE? then e.p.loadX else 0.0)
  }

  /** The known vertical force: point loads' load_y and distributed loads' resultants. */
  function VerticalLoad(loads: seq<Element>): real
    decreases |loads|
  {
    if loads == [] then 0.0
    else
      var e := loads[|loads| - 1];
      VerticalLoad(loads[..|loads| - 1]) +
        (match e
         case PointE(p) => p.loadY
         case UdlE(u) => u.netload
         case UvlE(v) => v.netload
         case _ => 0.0)
  }

  /** The element is a support that carries the unknown `u`. */
  predicate Carries(e: Element, u: Unknown)
  {
    e.SupportE? && u in e.r.Unknowns()
  }

  /** How many elements of the list carry `u` (a support listed twice counts twice). */
  function Carriers(loads: seq<Element>, u: Unknown): nat
    decreases |loads|
  {
    if loads == [] then 0
    else Carriers(loads[..|loads| - 1], u) + (if Carries(loads[|loads| - 1], u) then 1 else 0)
  }

  lemma PartFx(e: Element)
    ensures Part(Fx, e).constant == if e.PointE? then e.p.loadX else 0.0
    ensures forall u :: Coef(Part(Fx, e), u) == if u.comp == X && Carries(e, u) then 1.0 else 0.0
  {
    if e.SupportE? {
      var r := e.r;
      forall u: Unknown
        ensures u.comp == X && Carries(e, u) <==> HasX(r.kind) && u == XOf(r)
      {
      }
    }
  }

  lemma PartFy(e: Element)
    ensures Part(Fy, e).constant
         == (match e case PointE(p) => p.loadY case UdlE(u) => u.netload case UvlE(v) => v.netload case _ => 0.0)
    ensures forall u :: Coef(Part(Fy, e), u) == if u.comp == Y && Carries(e, u) then 1.0 else 0.0
  {
    if e.SupportE? {
      var r := e.r;
      forall u: Unknown
        ensures u.comp == Y && Carries(e, u) <==> u == YOf(r)
      {
      }
    }
  }

  /**
   * fx is the known horizontal load plus, once per hinge or fixed support, that support's X
   * unknown; it holds no Y or M unknown.
   */
  lemma {:induction false} FxTotal(loads: seq<Element>)
    ensures Total(Fx, loads).constant == HorizontalLoad(loads)
    ensures forall u :: Coef(Total(Fx, loads), u) == if u.comp == X then Carriers(loads, u) as real else 0.0
    decreases |loads|
  {
    if loads != [] {
      var rest, e := loads[..|loads| - 1], loads[|loads| - 1];
      var t, p := Total(Fx, rest), Part(Fx, e);
      assert Total(Fx, loads) == Plus(t, p);
      FxTotal(rest);
      PartFx(e);
      forall u: Unknown
        ensures Coef(Total(Fx, loads), u) == if u.comp == X then Carriers(loads, u) as real else 0.0
      {
        assert Coef(Plus(t, p), u) == Coef(t, u) + Coef(p, u);
        assert Carriers(loads, u) == Carriers(rest, u) + (if Carries(e, u) then 1 else 0);
      }
    }
  }

  /**
   * fy is the known vertical load plus, once per support, that support's Y unknown; it holds
   * no X or M unknown.
   */
  lemma {:induction false} FyTotal(loads: seq<Element>)
    ensures Total(Fy, loads).constant == VerticalLoad(loads)
    ensures forall u :: Coef(Total(Fy, loads), u) == if u.comp == Y then Carriers(loads, u) as real else 0.0
    decreases |loads|
  {
    if loads != [] {
      var rest, e := loads[..|loads| - 1], loads[|loads| - 1];
      var t, p := Total(Fy, rest), Part(Fy, e);
      assert Total(Fy, loads) == Plus(t, p);
      FyTotal(rest);
      PartFy(e);
      forall u: Unknown
        ensures Coef(Total(Fy, loads), u) == if u.comp == Y then Carriers(loads, u) as real else 0.0
      {
        assert Coef(Plus(t, p), u) == Coef(t, u) + Coef(p, u);
        assert Carriers(loads, u) == Carriers(rest, u) + (if Carries(e, u) then 1 else 0);
      }
    }
  }

  /** Point moments, hinges and plain loads add nothing to fx or fy. */
  lemma ForceSumsIgnore(loads: seq<Element>, e: Element)
    requires e.MomentE? || e.HingeE? || e.LoadE?
    ensures Total(Fx, loads + [e]) == Total(Fx, loads)
    ensures Total(Fy, loads + [e]) == Total(Fy, loads)
  {
    assert Part(Fx, e) == Zero() && Part(Fy, e) == Zero();
    TotalSnoc(Fx, loads, e);
    TotalSnoc(Fy, loads, e);
    PlusZero(Total(Fx, loads));
    PlusZero(Total(Fy, loads));
  }

  // ---------------------------------------------------------------------------------------
  // The hinge sum
  // ---------------------------------------------------------------------------------------

  /** The elements strictly on the hinge's side, in order. */
  function OnSideOf(loads: seq<Element>, h: Hinge): (side: seq<Element>)
    ensures forall e :: e in side ==> OnSide(e, h) && e in loads
    ensures forall e {:trigger multiset(side)[e]} :: e in loads ==> multiset(side)[e] == if OnSide(e, h) then multiset(loads)[e] else 0
    ensures |side| <= |loads|
    decreases |loads|
  {
    if loads == [] then []
    else
      var front, e := loads[..|loads| - 1], loads[|loads| - 1];
      var rest := OnSideOf(front, h);
      assert loads == front + [e];
      if OnSide(e, h) then rest + [e] else rest
  }

  /** One more element leaves the side list of the front as a prefix, extended by the element when it is on the side. */
  lemma OnSideStep(loads: seq<Element>, h: Hinge)
    requires loads != []
    ensures |OnSideOf(loads[..|loads| - 1], h)| <= |OnSideOf(loads, h)|
    ensures OnSideOf(loads, h)[..|OnSideOf(loads[..|loads| - 1], h)|] == OnSideOf(loads[..|loads| - 1], h)
    ensures OnSide(loads[|loads| - 1], h) ==>
              |OnSideOf(loads, h)| == |OnSideOf(loads[..|loads| - 1], h)| + 1
              && OnSideOf(loads, h)[|OnSideOf(loads[..|loads| - 1], h)|] == loads[|loads| - 1]
  {
    var fside := OnSideOf(loads[..|loads| - 1], h);
    if OnSide(loads[|loads| - 1], h) {
      assert (fside + [loads[|loads| - 1]])[..|fside|] == fside;
    }
  }

  /** The side list keeps the order of the load list. */
  lemma {:induction false} OnSideOrder(loads: seq<Element>, h: Hinge, i: int, j: int)
    requires 0 <= i < j < |loads| && OnSide(loads[i], h) && OnSide(loads[j], h)
    ensures exists k, l :: 0 <= k < l < |OnSideOf(loads, h)|
                        && OnSideOf(loads, h)[k] == loads[i] && OnSideOf(loads, h)[l] == loads[j]
    decreases |loads|
  {
    var n := |loads| - 1;
    var front := loads[..n];
    var fside, side := OnSideOf(front, h), OnSideOf(loads, h);
    OnSideStep(loads, h);
    assert front[i] == loads[i];
    if j < n {
      assert front[j] == loads[j];
      OnSideOrder(front, h, i, j);
      var k, l :| 0 <= k < l < |fside| && fside[k] == front[i] && fside[l] == front[j];
      assert side[..|fside|][k] == side[k] && side[..|fside|][l] == side[l];
    } else {
      assert loads[i] in multiset(fside);
      var k :| 0 <= k < |fside| && fside[k] == loads[i];
      assert side[..|fside|][k] == side[k] && side[|fside|] == loads[j];
    }
  }

  /**
   * m_hinge is the moment about the hinge of exactly the elements strictly on its side; an
   * element at the hinge itself is on neither side.
   */
  lemma {:induction false} HingeTotal(loads: seq<Element>, h: Hinge)
    ensures Total(HingeMoment(h), loads) == Total(Moment(h.pos), OnSideOf(loads, h))
    decreases |loads|
  {
    if loads != [] {
      var rest, e := loads[..|loads| - 1], loads[|loads| - 1];
      var t := Total(HingeMoment(h), rest);
      assert Total(HingeMoment(h), loads) == Plus(t, Part(HingeMoment(h), e));
      HingeTotal(rest, h);
      PartHinge(h, e);
      if OnSide(e, h) {
        assert OnSideOf(loads, h) == OnSideOf(rest, h) + [e];
        PartMoment(h.pos, e);
        TotalSnoc(Moment(h.pos), OnSideOf(rest, h), e);
      } else {
        assert OnSideOf(loads, h) == OnSideOf(rest, h);
        PlusZero(t);
      }
    }
  }

  lemma PartHinge(h: Hinge, e: Element)
    ensures Part(HingeMoment(h), e) == if OnSide(e, h) then MomentPart(h.pos, e) else Zero()
  {
  }

  lemma AtHingeNothing(e: Element, h: Hinge)
    requires Pos(e) == h.pos
    ensures !OnSide(e, h) && Part(HingeMoment(h), e) == Zero()
  {
  }

  // ---------------------------------------------------------------------------------------
  // Values of the sums under a solution
  // ---------------------------------------------------------------------------------------

  /** `sol` gives a value to every unknown of every support in the list. */
  ghost predicate Covers(loads: seq<Element>, sol: map<Unknown, real>)
  {
    forall i :: 0 <= i < |loads| && loads[i].SupportE? ==> (forall u :: u in loads[i].r.Unknowns() ==> u in sol)
  }

  lemma CoversPrefix(loads: seq<Element>, n: nat, sol: map<Unknown, real>)
    requires Covers(loads, sol) && n <= |loads|
    ensures Covers(loads[..n], sol)
  {
  }

  lemma PartKeys(s: Sum, e: Element, sol: map<Unknown, real>)
    requires e.SupportE? ==> forall u :: u in e.r.Unknowns() ==> u in sol
    ensures Part(s, e).coef.Keys <= sol.Keys
  {
    if e.SupportE? {
      var r := e.r;
      assert XOf(r) in sol <== HasX(r.kind);
      assert YOf(r) in sol;
      assert MOf(r) in sol <== HasM(r.kind);
    }
  }

  lemma {:induction false} TotalKeys(s: Sum, loads: seq<Element>, sol: map<Unknown, real>)
    requires Covers(loads, sol)
    ensures Total(s, loads).coef.Keys <= sol.Keys
    decreases |loads|
  {
    if loads != [] {
      var n := |loads| - 1;
      CoversPrefix(loads, n, sol);
      TotalKeys(s, loads[..n], sol);
      PartKeys(s, loads[n], sol);
    }
  }

  /** Eval of a sum over a list extended by one element. */
  lemma EvalSnoc(s: Sum, loads: seq<Element>, sol: map<Unknown, real>)
    requires loads != [] && Covers(loads, sol)
    ensures Total(s, loads).coef.Keys <= sol.Keys
    ensures Total(s, loads[..|loads| - 1]).coef.Keys <= sol.Keys
    ensures Part(s, loads[|loads| - 1]).coef.Keys <= sol.Keys
    ensures Eval(Total(s, loads), sol)
         == Eval(Total(s, loads[..|loads| - 1]), sol) + Eval(Part(s, loads[|loads| - 1]), sol)
  {
    var n := |loads| - 1;
    CoversPrefix(loads, n, sol);
    TotalKeys(s, loads[..n], sol);
    PartKeys(s, loads[n], sol);
    EvalPlus(Total(s, loads[..n]), Part(s, loads[n]), sol);
  }

  /**
   * Under `sol`, the form `m` (a moment about `a`) has the value of `m0` (the same moment about
   * 0) minus `a` times the value of `f` (the vertical force).
   */
  ghost predicate Shifted(a: real, m: LinearForm, m0: LinearForm, f: LinearForm, sol: map<Unknown, real>)
  {
    && m.coef.Keys <= sol.Keys && m0.coef.Keys <= sol.Keys && f.coef.Keys <= sol.Keys
    && Eval(m, sol) == Eval(m0, sol) - a * Eval(f, sol)
  }

  lemma ShiftConst(a: real, pos: real, w: real, m: real, m0: real, f: real)
    requires m == (pos - a) * w && m0 == (pos - 0.0) * w && f == w
    ensures m == m0 - a * f
  {
  }

  lemma ShiftSupport(a: real, pos: real, v: real, w: real, m: real, m0: real, f: real)
    requires m == (pos - a) * v + w && m0 == (pos - 0.0) * v + w && f == 1.0 * v
    ensures m == m0 - a * f
  {
  }

  lemma ShiftSum(a: real, m: real, m0: real, f: real, pm: real, pm0: real, pf: real,
                 tm: real, tm0: real, tf: real)
    requires m == m0 - a * f && pm == pm0 - a * pf
    requires tm == m + pm && tm0 == m0 + pm0 && tf == f + pf
    ensures tm == tm0 - a * tf
  {
  }

  /** Packs the two halves of Shifted, so callers close it by matching, not by unfolding. */
  lemma ShiftedIntro(a: real, m: LinearForm, m0: LinearForm, f: LinearForm, sol: map<Unknown, real>,
                     vm: real, vm0: real, vf: real)
    requires m.coef.Keys <= sol.Keys && m0.coef.Keys <= sol.Keys && f.coef.Keys <= sol.Keys
    requires Eval(m, sol) == vm && Eval(m0, sol) == vm0 && Eval(f, sol) == vf
    requires vm == vm0 - a * vf
    ensures Shifted(a, m, m0, f, sol)
  {
  }

  lemma ShiftedConst(a: real, pos: real, w: real, sol: map<Unknown, real>)
    ensures Shifted(a, Const((pos - a) * w), Const((pos - 0.0) * w), Const(w), sol)
  {
    EvalConst((pos - a) * w, sol);
    EvalConst((pos - 0.0) * w, sol);
    EvalConst(w, sol);
    ShiftConst(a, pos, w, (pos - a) * w, (pos - 0.0) * w, w);
    ShiftedIntro(a, Const((pos - a) * w), Const((pos - 0.0) * w), Const(w), sol,
                 (pos - a) * w, (pos - 0.0) * w, w);
  }

  lemma ShiftedMoment(a: real, mom: real, sol: map<Unknown, real>)
    ensures Shifted(a, Const(mom), Const(mom), Zero(), sol)
  {
    EvalConst(mom, sol);
    EvalConst(0.0, sol);
    ShiftSum(a, 0.0, 0.0, 0.0, mom, mom, 0.0, mom, mom, 0.0);
    ShiftedIntro(a, Const(mom), Const(mom), Const(0.0), sol, mom, mom, 0.0);
  }

  /** Shifted for three forms whose values are those of single terms in the unknown's value `v`. */
  lemma ShiftedScaled(a: real, pos: real, v: real, m: LinearForm, m0: LinearForm, f: LinearForm,
                      sol: map<Unknown, real>)
    requires m.coef.Keys <= sol.Keys && m0.coef.Keys <= sol.Keys && f.coef.Keys <= sol.Keys
    requires Eval(m, sol) == (pos - a) * v && Eval(m0, sol) == (pos - 0.0) * v
    requires Eval(f, sol) == 1.0 * v
    ensures Shifted(a, m, m0, f, sol)
  {
    ShiftSupport(a, pos, v, 0.0, (pos - a) * v, (pos - 0.0) * v, 1.0 * v);
    ShiftedIntro(a, m, m0, f, sol, (pos - a) * v, (pos - 0.0) * v, 1.0 * v);
  }

  lemma ShiftedMono(a: real, pos: real, y: Unknown, sol: map<Unknown, real>)
    requires y in sol
    ensures Shifted(a, Mono(y, pos - a), Mono(y, pos - 0.0), Mono(y, 1.0), sol)
  {
    EvalMono(y, pos - a, sol);
    EvalMono(y, pos - 0.0, sol);
    EvalMono(y, 1.0, sol);
    ShiftedScaled(a, pos, sol[y], Mono(y, pos - a), Mono(y, pos - 0.0), Mono(y, 1.0), sol);
  }

  lemma ShiftedSame(a: real, fm: LinearForm, sol: map<Unknown, real>)
    requires fm.coef.Keys <= sol.Keys
    ensures Shifted(a, fm, fm, Zero(), sol)
  {
    var v := Eval(fm, sol);
    EvalConst(0.0, sol);
    ShiftSum(a, 0.0, 0.0, 0.0, v, v, 0.0, v, v, 0.0);
    ShiftedIntro(a, fm, fm, Const(0.0), sol, v, v, 0.0);
  }

  lemma ShiftedSupport(a: real, pos: real, y: Unknown, fm: LinearForm, sol: map<Unknown, real>)
    requires y in sol && fm.coef.Keys <= sol.Keys
    ensures Shifted(a, Plus(Mono(y, pos - a), fm), Plus(Mono(y, pos - 0.0), fm), Mono(y, 1.0), sol)
  {
    ShiftedMono(a, pos, y, sol);
    ShiftedSame(a, fm, sol);
    ShiftedPlus(a, Mono(y, pos - a), Mono(y, pos - 0.0), Mono(y, 1.0), fm, fm, Zero(), sol);
    PlusZero(Mono(y, 1.0));
  }

  /** Shifted is closed under adding the three sums, stated over the sums' values. */
  lemma ShiftedAdd(a: real, m: LinearForm, m0: LinearForm, f: LinearForm,
                   pm: LinearForm, pm0: LinearForm, pf: LinearForm,
                   sm: LinearForm, sm0: LinearForm, sf: LinearForm, sol: map<Unknown, real>)
    requires Shifted(a, m, m0, f, sol) && Shifted(a, pm, pm0, pf, sol)
    requires sm.coef.Keys <= sol.Keys && sm0.coef.Keys <= sol.Keys && sf.coef.Keys <= sol.Keys
    requires Eval(sm, sol) == Eval(m, sol) + Eval(pm, sol)
    requires Eval(sm0, sol) == Eval(m0, sol) + Eval(pm0, sol)
    requires Eval(sf, sol) == Eval(f, sol) + Eval(pf, sol)
    ensures Shifted(a, sm, sm0, sf, sol)
  {
    var vm, vm0, vf := Eval(m, sol), Eval(m0, sol), Eval(f, sol);
    var wm, wm0, wf := Eval(pm, sol), Eval(pm0, sol), Eval(pf, sol);
    ShiftSum(a, vm, vm0, vf, wm, wm0, wf, vm + wm, vm0 + wm0, vf + wf);
    ShiftedIntro(a, sm, sm0, sf, sol, vm + wm, vm0 + wm0, vf + wf);
  }

  lemma ShiftedPlus(a: real, m: LinearForm, m0: LinearForm, f: LinearForm,
                    pm: LinearForm, pm0: LinearForm, pf: LinearForm, sol: map<Unknown, real>)
    requires Shifted(a, m, m0, f, sol) && Shifted(a, pm, pm0, pf, sol)
    ensures Shifted(a, Plus(m, pm), Plus(m0, pm0), Plus(f, pf), sol)
  {
    assert m.coef.Keys <= sol.Keys && pm.coef.Keys <= sol.Keys;
    assert m0.coef.Keys <= sol.Keys && pm0.coef.Keys <= sol.Keys;
    assert f.coef.Keys <= sol.Keys && pf.coef.Keys <= sol.Keys;
    EvalPlus(m, pm, sol);
    EvalPlus(m0, pm0, sol);
    EvalPlus(f, pf, sol);
    ShiftedAdd(a, m, m0, f, pm, pm0, pf, Plus(m, pm), Plus(m0, pm0), Plus(f, pf), sol);
  }

  lemma PartMoment(a: real, e: Element)
    ensures Part(Moment(a), e) == MomentPart(a, e)
  {
  }

  lemma MomentPartSupport(a: real, e: Element)
    requires e.SupportE?
    ensures MomentPart(a, e) == Plus(Mono(YOf(e.r), e.r.pos - a), SupportCouple(e.r))
  {
  }

  /** The moment a support contributes about `a`, spelled out. */
  lemma SupportMomentPart(a: real, e: Element)
    requires e.SupportE?
    ensures Part(Moment(a), e) == Plus(Mono(YOf(e.r), e.r.pos - a), SupportCouple(e.r))
  {
    PartMoment(a, e);
    MomentPartSupport(a, e);
  }

  lemma SupportForcePart(e: Element)
    requires e.SupportE?
    ensures Part(Fy, e) == Mono(YOf(e.r), 1.0)
  {
  }

  lemma SupportKeys(r: Reaction, sol: map<Unknown, real>)
    requires forall u :: u in r.Unknowns() ==> u in sol
    ensures YOf(r) in sol && SupportCouple(r).coef.Keys <= sol.Keys
  {
    assert YOf(r) in r.Unknowns();
    assert MOf(r) in sol <== HasM(r.kind);
  }

  lemma ShiftedSupportAt(a: real, e: Element, pos: real, y: Unknown, fm: LinearForm, sol: map<Unknown, real>)
    requires y in sol && fm.coef.Keys <= sol.Keys
    requires Part(Moment(a), e) == Plus(Mono(y, pos - a), fm)
    requires Part(Moment(0.0), e) == Plus(Mono(y, pos - 0.0), fm)
    requires Part(Fy, e) == Mono(y, 1.0)
    ensures Shifted(a, Part(Moment(a), e), Part(Moment(0.0), e), Part(Fy, e), sol)
  {
    ShiftedSupport(a, pos, y, fm, sol);
  }

  lemma ShiftedSupportPart(a: real, e: Element, sol: map<Unknown, real>)
    requires e.SupportE? && forall u :: u in e.r.Unknowns() ==> u in sol
    ensures Shifted(a, Part(Moment(a), e), Part(Moment(0.0), e), Part(Fy, e), sol)
  {
    SupportKeys(e.r, sol);
    SupportMomentPart(a, e);
    SupportMomentPart(0.0, e);
    SupportForcePart(e);
    ShiftedSupportAt(a, e, e.r.pos, YOf(e.r), SupportCouple(e.r), sol);
  }

  lemma ShiftedForcePart(a: real, e: Element, pos: real, w: real, sol: map<Unknown, real>)
    requires Part(Moment(a), e) == Const((pos - a) * w)
    requires Part(Moment(0.0), e) == Const((pos - 0.0) * w)
    requires Part(Fy, e) == Const(w)
    ensures Shifted(a, Part(Moment(a), e), Part(Moment(0.0), e), Part(Fy, e), sol)
  {
    ShiftedConst(a, pos, w, sol);
  }

  lemma ShiftedCouplePart(a: real, e: Element, mom: real, sol: map<Unknown, real>)
    requires Part(Moment(a), e) == Const(mom) && Part(Moment(0.0), e) == Const(mom)
    requires Part(Fy, e) == Zero()
    ensures Shifted(a, Part(Moment(a), e), Part(Moment(0.0), e), Part(Fy, e), sol)
  {
    ShiftedMoment(a, mom, sol);
  }

  /** The moment of one element about `a`, from its moment about 0 and its vertical force. */
  lemma EvalMomentPart(a: real, e: Element, sol: map<Unknown, real>)
    requires e.SupportE? ==> forall u :: u in e.r.Unknowns() ==> u in sol
    ensures Shifted(a, Part(Moment(a), e), Part(Moment(0.0), e), Part(Fy, e), sol)
  {
    match e
    case PointE(p) => ShiftedForcePart(a, e, p.pos, p.loadY, sol);
    case UdlE(u) => ShiftedForcePart(a, e, u.pos, u.netload, sol);
    case UvlE(v) => ShiftedForcePart(a, e, v.pos, v.netload, sol);
    case SupportE(_) => ShiftedSupportPart(a, e, sol);
    case MomentE(m) => ShiftedCouplePart(a, e, m.mom, sol);
    case HingeE(_) => ShiftedCouplePart(a, e, 0.0, sol);
    case LoadE(_) => ShiftedCouplePart(a, e, 0.0, sol);
  }

  /**
   * Moving the moment centre: under any solution, the moment about `a` equals the moment about
   * 0 minus `a` times the vertical force sum.
   */
  lemma {:induction false} MomentShift(a: real, loads: seq<Element>, sol: map<Unknown, real>)
    requires Covers(loads, sol)
    ensures Shifted(a, Total(Moment(a), loads), Total(Moment(0.0), loads), Total(Fy, loads), sol)
    decreases |loads|
  {
    if loads == [] {
      ShiftedMoment(a, 0.0, sol);
    } else {
      var n := |loads| - 1;
      var rest, e := loads[..n], loads[n];
      CoversPrefix(loads, n, sol);
      MomentShift(a, rest, sol);
      EvalMomentPart(a, e, sol);
      ShiftedPlus(a, Total(Moment(a), rest), Total(Moment(0.0), rest), Total(Fy, rest),
                  Part(Moment(a), e), Part(Moment(0.0), e), Part(Fy, e), sol);
    }
  }

  lemma VanishShifted(a: real, m: LinearForm, m0: LinearForm, f: LinearForm, sol: map<Unknown, real>)
    requires Shifted(a, m, m0, f, sol) && Vanishes(m0, sol) && Vanishes(f, sol)
    ensures Vanishes(m, sol)
  {
    Vanish(a, Eval(m, sol), Eval(m0, sol), Eval(f, sol));
  }

  /** The converse direction: a vanishing moment about `a` and fy leave the moment about 0 at 0. */
  lemma VanishUnshifted(a: real, m: LinearForm, m0: LinearForm, f: LinearForm, sol: map<Unknown, real>)
    requires Shifted(a, m, m0, f, sol) && Vanishes(m, sol) && Vanishes(f, sol)
    ensures Vanishes(m0, sol)
  {
    Unvanish(a, Eval(m, sol), Eval(m0, sol), Eval(f, sol));
  }

  lemma Unvanish(a: real, m: real, m0: real, f: real)
    requires m == m0 - a * f && m == 0.0 && f == 0.0
    ensures m0 == 0.0
  {
  }

  lemma Vanish(a: real, m: real, m0: real, f: real)
    requires m == m0 - a * f && m0 == 0.0 && f == 0.0
    ensures m == 0.0
  {
  }

  /** If fy and the moment about 0 vanish, so does the moment about any point. */
  lemma MomentAnywhere(a: real, loads: seq<Element>, sol: map<Unknown, real>)
    requires Covers(loads, sol)
    requires Vanishes(Total(Fy, loads), sol) && Vanishes(Total(Moment(0.0), loads), sol)
    ensures Vanishes(Total(Moment(a), loads), sol)
  {
    MomentShift(a, loads, sol);
    VanishShifted(a, Total(Moment(a), loads), Total(Moment(0.0), loads), Total(Fy, loads), sol);
  }
}
