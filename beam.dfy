/**
 * The beam of the current version: it accumulates the equilibrium sums fx, fy, m and
 * m_hinge over load lists, has the reactions solved and written back onto the supports, and
 * builds the Macaulay equations of the shear force and the bending moment.
 */
module BeamModel {
  import opened Outcomes
  import opened LinearForms
  import opened Loads
  import opened Equilibrium
  import opened Diagrams
  import opened Reactions

  /** No distributed load on the hinge's side reaches across the hinge. */
  predicate Straddles(e: Element, h: Hinge)
  {
    match e
    case UdlE(u) => u.start < h.pos < u.end
    case UvlE(v) => v.start < h.pos < v.end
    case _ => false
  }

  /**
   * What add_hinge is modelled for: a side the Hinge constructor accepts, and no UDL or UVL
   * on that side that would need cutting at the hinge.
   */
  predicate HingeReady(h: Hinge, loads: seq<Element>)
  {
    && ValidSide(h.side)
    && forall i :: 0 <= i < |loads| && OnSide(loads[i], h) ==> !Straddles(loads[i], h)
  }

  /** No element after index i is a hinge. */
  predicate NoHingeAfter(loads: seq<Element>, i: int)
  {
    forall j :: 0 <= j < |loads| && i < j ==> !loads[j].HingeE?
  }

  /** The hinge fast_solve uses: the last one in the list. */
  function LastHinge(loads: seq<Element>): (h: Option<Hinge>)
    ensures h.Some? ==> exists i :: 0 <= i < |loads| && loads[i] == HingeE(h.value) && NoHingeAfter(loads, i)
    ensures h.None? <==> NoHingeAfter(loads, -1)
    decreases |loads|
  {
    if loads == [] then None
    else
      var n := |loads| - 1;
      if loads[n].HingeE? then
        assert loads[n] == HingeE(loads[n].h) && NoHingeAfter(loads, n);
        Some(loads[n].h)
      else
        var front := loads[..n];
        var h := LastHinge(front);
        assert forall i :: 0 <= i < n ==> front[i] == loads[i];
        assert h.Some? ==> exists i :: 0 <= i < |loads| && loads[i] == HingeE(h.value) && NoHingeAfter(loads, i) by {
          if h.Some? {
            var i :| 0 <= i < n && front[i] == HingeE(h.value) && NoHingeAfter(front, i);
            assert loads[i] == HingeE(h.value) && NoHingeAfter(loads, i);
          }
        }
        h
  }

  /**
   * With the sums accumulated on a fresh beam and reactions that make fy and m (about 0)
   * vanish, both diagrams return to 0 at the end of the beam.
   */
  lemma Closes(loads: seq<Element>, length: real, sol: map<Unknown, real>, fy: LinearForm, m: LinearForm)
    requires fy == Plus(Zero(), Total(Fy, loads)) && m == Plus(Zero(), Total(Moment(0.0), loads))
    requires Vanishes(fy, sol) && Vanishes(m, sol)
    requires AllOnBeam(loads, length) && Covers(loads, sol) && AllWritten(loads, sol)
    ensures Value(ShearDiagram(loads, length), length) == 0.0
    ensures Value(MomentDiagram(loads, length), length) == 0.0
  {
    PlusZero(Total(Fy, loads));
    PlusZero(Total(Moment(0.0), loads));
    DiagramsClose(loads, length, sol);
  }

  class Beam {
    const length: real
    /** The sums of horizontal forces, vertical forces, moments, and moments about the hinge. */
    var fx: LinearForm
    var fy: LinearForm
    var m: LinearForm
    var mHinge: LinearForm
    /** What the solver returned, once calculate_reactions has run. */
    var solvedRxns: Option<map<Unknown, real>>
    /** The Macaulay equations, once generated (None while they are still the initial 0). */
    var shearFn: Option<seq<MacaulayTerm>>
    var momFn: Option<seq<MacaulayTerm>>

    constructor (length: real)
      ensures this.length == length
      ensures fx == Zero() && fy == Zero() && m == Zero() && mHinge == Zero()
      ensures solvedRxns == None && shearFn == None && momFn == None
      ensures Valid()
    {
      this.length := length;
      fx, fy, m, mHinge := Zero(), Zero(), Zero(), Zero();
      solvedRxns, shearFn, momFn := None, None, None;
    }

    /** The shear force at x, from the generated equation. */
    function ShearAt(x: real): real
      reads this
      requires shearFn.Some?
    {
      Value(shearFn.value, x)
    }

    /** The bending moment at x, from the generated equation. */
    function MomentAt(x: real): real
      reads this
      requires momFn.Some?
    {
      Value(momFn.value, x)
    }

    /**
     * The four equations calculate_reactions hands to the solver (fx, fy, m and m_hinge
     * equal to 0) hold under `sol`.
     */
    ghost predicate Solves(sol: map<Unknown, real>)
      reads this
    {
      Vanishes(fx, sol) && Vanishes(fy, sol) && Vanishes(m, sol) && Vanishes(mHinge, sol)
    }

    /** The sums are kept as canonical linear forms. */
    ghost predicate Valid()
      reads this
    {
      Canonical(fx) && Canonical(fy) && Canonical(m) && Canonical(mHinge)
    }

    /** add_loads: every element adds its horizontal part to fx and its vertical part to fy. */
    method AddLoads(loads: seq<Element>)
      requires Valid()
      modifies this
      ensures Valid()
      ensures fx == Plus(old(fx), Total(Fx, loads)) && fy == Plus(old(fy), Total(Fy, loads))
      ensures m == old(m) && mHinge == old(mHinge)
      ensures solvedRxns == old(solvedRxns) && shearFn == old(shearFn) && momFn == old(momFn)
    {
      PlusZero(fx);
      PlusZero(fy);
      for i := 0 to |loads|
        invariant Valid()
        invariant fx == Plus(old(fx), Total(Fx, loads[..i])) && fy == Plus(old(fy), Total(Fy, loads[..i]))
        invariant m == old(m) && mHinge == old(mHinge)
        invariant solvedRxns == old(solvedRxns) && shearFn == old(shearFn) && momFn == old(momFn)
      {
        PlusAssoc(old(fx), Total(Fx, loads[..i]), Part(Fx, loads[i]));
        PlusAssoc(old(fy), Total(Fy, loads[..i]), Part(Fy, loads[i]));
        fx := Plus(fx, Part(Fx, loads[i]));
        fy := Plus(fy, Part(Fy, loads[i]));
        assert loads[..i + 1][..i] == loads[..i];
      }
      assert loads[..|loads|] == loads;
    }

    /** add_moments: every element adds its moment about `about` to m. */
    method AddMoments(momGens: seq<Element>, about: real := 0.0)
      requires Valid()
      modifies this
      ensures Valid()
      ensures m == Plus(old(m), Total(Moment(about), momGens))
      ensures fx == old(fx) && fy == old(fy) && mHinge == old(mHinge)
      ensures solvedRxns == old(solvedRxns) && shearFn == old(shearFn) && momFn == old(momFn)
    {
      PlusZero(m);
      for i := 0 to |momGens|
        invariant Valid()
        invariant m == Plus(old(m), Total(Moment(about), momGens[..i]))
        invariant fx == old(fx) && fy == old(fy) && mHinge == old(mHinge)
        invariant solvedRxns == old(solvedRxns) && shearFn == old(shearFn) && momFn == old(momFn)
      {
        PlusAssoc(old(m), Total(Moment(about), momGens[..i]), Part(Moment(about), momGens[i]));
        m := Plus(m, Part(Moment(about), momGens[i]));
        assert momGens[..i + 1][..i] == momGens[..i];
      }
      assert momGens[..|momGens|] == momGens;
    }

    /**
     * add_hinge: the elements strictly on the hinge's side add their moments about the
     * hinge to mHinge; anything but a hinge is a ValueError.
     */
    method AddHinge(hinge: Element, momGens: seq<Element>) returns (res: Result<()>)
      requires Valid() && (hinge.HingeE? ==> HingeReady(hinge.h, momGens))
      modifies this
      ensures Valid()
      ensures res.Ok? <==> hinge.HingeE?
      ensures res.Err? ==> res.error == ValueError(ClassName(hinge) + " object cannot be treated as Hinge object")
      ensures hinge.HingeE? ==> mHinge == Plus(old(mHinge), Total(Moment(hinge.h.pos), OnSideOf(momGens, hinge.h)))
      ensures !hinge.HingeE? ==> mHinge == old(mHinge)
      ensures fx == old(fx) && fy == old(fy) && m == old(m)
      ensures solvedRxns == old(solvedRxns) && shearFn == old(shearFn) && momFn == old(momFn)
    {
      if !hinge.HingeE? {
        return Err(ValueError(ClassName(hinge) + " object cannot be treated as Hinge object"));
      }
      var h := hinge.h;
      var side := OnSideOf(momGens, h);
      PlusZero(mHinge);
      for i := 0 to |side|
        invariant Valid()
        invariant mHinge == Plus(old(mHinge), Total(Moment(h.pos), side[..i]))
        invariant fx == old(fx) && fy == old(fy) && m == old(m)
        invariant solvedRxns == old(solvedRxns) && shearFn == old(shearFn) && momFn == old(momFn)
      {
        PlusAssoc(old(mHinge), Total(Moment(h.pos), side[..i]), Part(Moment(h.pos), side[i]));
        mHinge := Plus(mHinge, Part(Moment(h.pos), side[i]));
        assert side[..i + 1][..i] == side[..i];
      }
      assert side[..|side|] == side;
      return Ok(());
    }

    /**
     * calculate_reactions: collects the unknowns in order, takes the solver's answer `sol`
     * to the four equations and writes the solved values back onto the supports.
     */
    method CalculateReactions(rxns: seq<Reaction>, sol: map<Unknown, real>) returns (evalValues: seq<Unknown>)
      requires forall i :: 0 <= i < |rxns| ==> Named(rxns[i], sol) && rxns[i].Valid()
      requires Solves(sol)
      modifies this, set r | r in rxns
      ensures evalValues == UnknownList(rxns)
      ensures solvedRxns == Some(sol) && Solves(sol)
      ensures forall r :: r in rxns ==> Written(r, sol)
      ensures fx == old(fx) && fy == old(fy) && m == old(m) && mHinge == old(mHinge)
      ensures shearFn == old(shearFn) && momFn == old(momFn)
    {
      evalValues := CollectUnknowns(rxns);
      solvedRxns := Some(sol);
      WriteBack(rxns, sol);
    }

    /** generate_shear_equation: the shear terms of every element, in order. */
    method GenerateShearEquation(loads: seq<Element>)
      requires shearFn.None?
      modifies this
      ensures shearFn == Some(ShearDiagram(loads, length))
      ensures fx == old(fx) && fy == old(fy) && m == old(m) && mHinge == old(mHinge)
      ensures solvedRxns == old(solvedRxns) && momFn == old(momFn)
    {
      var fn: seq<MacaulayTerm> := [];
      for i := 0 to |loads|
        invariant fn == ShearDiagram(loads[..i], length)
      {
        assert loads[..i + 1][..i] == loads[..i];
        fn := fn + ShearTerms(loads[i], length);
      }
      assert loads[..|loads|] == loads;
      assert fn == ShearDiagram(loads, length);
      assert forall r :: r in SupportSet(loads) ==> r as object != this as object;
      shearFn := Some(fn);
    }

    /** generate_moment_equation: the moment terms of every element, in order. */
    method GenerateMomentEquation(loads: seq<Element>)
      requires momFn.None?
      modifies this
      ensures momFn == Some(MomentDiagram(loads, length))
      ensures fx == old(fx) && fy == old(fy) && m == old(m) && mHinge == old(mHinge)
      ensures solvedRxns == old(solvedRxns) && shearFn == old(shearFn)
    {
      var fn: seq<MacaulayTerm> := [];
      for i := 0 to |loads|
        invariant fn == MomentDiagram(loads[..i], length)
      {
        assert loads[..i + 1][..i] == loads[..i];
        fn := fn + MomentTerms(loads[i], length);
      }
      assert loads[..|loads|] == loads;
      assert fn == MomentDiagram(loads, length);
      assert forall r :: r in SupportSet(loads) ==> r as object != this as object;
      momFn := Some(fn);
    }

    /** The equilibrium half of fast_solve: the three sums and, given a hinge, its equation. */
    method AddSums(loads: seq<Element>, hin: Option<Hinge>)
      requires Valid()
      requires hin.Some? ==> HingeReady(hin.value, loads)
      requires AllValid(loads)
      modifies this
      ensures Valid() && AllValid(loads)
      ensures fx == Plus(old(fx), Total(Fx, loads)) && fy == Plus(old(fy), Total(Fy, loads))
      ensures m == Plus(old(m), Total(Moment(0.0), loads))
      ensures mHinge == match hin
                        case None => old(mHinge)
                        case Some(h) => Plus(old(mHinge), Total(Moment(h.pos), OnSideOf(loads, h)))
      ensures solvedRxns == old(solvedRxns) && shearFn == old(shearFn) && momFn == old(momFn)
    {
      label before:
      AddLoads(loads);
      AddMoments(loads);
      if hin.Some? {
        var ok := AddHinge(HingeE(hin.value), loads);
      }
      forall r | r in SupportSet(loads)
        ensures r.Valid()
      {
        assert r as object != this as object && old@before(r.Valid());
      }
    }

    /**
     * fast_solve: the sums, the hinge equation if the list has a hinge, the reactions and
     * both equations, all over the same list.
     */
    method FastSolve(loads: seq<Element>, sol: map<Unknown, real>)
      requires Valid() && shearFn.None? && momFn.None?
      requires Covers(loads, sol) && AllValid(loads)
      requires LastHinge(loads).Some? ==> HingeReady(LastHinge(loads).value, loads)
      requires Vanishes(Plus(fx, Total(Fx, loads)), sol) && Vanishes(Plus(fy, Total(Fy, loads)), sol)
      requires Vanishes(Plus(m, Total(Moment(0.0), loads)), sol)
      requires Vanishes(match LastHinge(loads)
                        case None => mHinge
                        case Some(h) => Plus(mHinge, Total(Moment(h.pos), OnSideOf(loads, h))), sol)
      modifies this, SupportSet(loads)
      ensures Valid() && Solves(sol)
      ensures fx == Plus(old(fx), Total(Fx, loads)) && fy == Plus(old(fy), Total(Fy, loads))
      ensures m == Plus(old(m), Total(Moment(0.0), loads))
      ensures mHinge == match LastHinge(loads)
                        case None => old(mHinge)
                        case Some(h) => Plus(old(mHinge), Total(Moment(h.pos), OnSideOf(loads, h)))
      ensures solvedRxns == Some(sol) && AllWritten(loads, sol)
      ensures shearFn == Some(ShearDiagram(loads, length)) && momFn == Some(MomentDiagram(loads, length))
    {
      var rxns, hin := Gather(loads);
      AddSums(loads, hin);
      SolveAndGenerate(loads, rxns, sol);
    }

    /**
     * The second half of fast_solve: calculate_reactions over the supports of the list,
     * then the shear and the moment equation.
     */
    method SolveAndGenerate(loads: seq<Element>, rxns: seq<Reaction>, sol: map<Unknown, real>)
      requires rxns == Supports(loads) && shearFn.None? && momFn.None?
      requires Covers(loads, sol) && AllValid(loads) && Solves(sol)
      modifies this, SupportSet(loads)
      ensures solvedRxns == Some(sol) && Solves(sol) && AllWritten(loads, sol)
      ensures shearFn == Some(ShearDiagram(loads, length)) && momFn == Some(MomentDiagram(loads, length))
      ensures fx == old(fx) && fy == old(fy) && m == old(m) && mHinge == old(mHinge)
    {
      SupportsNamed(loads, sol);
      var evalValues := CalculateReactions(rxns, sol);
      assert AllWritten(loads, sol) by {
        SupportsListed(loads);
      }
      GenerateEquations(loads);
    }

    /** The last two steps of fast_solve: the shear and the moment equation. */
    method GenerateEquations(loads: seq<Element>)
      requires shearFn.None? && momFn.None?
      modifies this
      ensures shearFn == Some(ShearDiagram(loads, length)) && momFn == Some(MomentDiagram(loads, length))
      ensures fx == old(fx) && fy == old(fy) && m == old(m) && mHinge == old(mHinge)
      ensures solvedRxns == old(solvedRxns)
    {
      assert forall r :: r in SupportSet(loads) ==> r as object != this as object;
      GenerateShearEquation(loads);
      GenerateMomentEquation(loads);
    }
  }

  /**
   * The two scans of fast_solve over its list: the supports, in order, and the last hinge
   * (None when there is none).
   */
  method Gather(loads: seq<Element>) returns (rxns: seq<Reaction>, hin: Option<Hinge>)
    ensures rxns == Supports(loads) && hin == LastHinge(loads)
  {
    rxns := [];
    for i := 0 to |loads|
      invariant rxns == Supports(loads[..i])
    {
      assert loads[..i + 1][..i] == loads[..i];
      if loads[i].SupportE? {
        rxns := rxns + [loads[i].r];
      }
    }
    hin := None;
    for i := 0 to |loads|
      invariant hin == LastHinge(loads[..i])
    {
      assert loads[..i + 1][..i] == loads[..i];
      if loads[i].HingeE? {
        hin := Some(loads[i].h);
      }
    }
    assert loads[..|loads|] == loads;
  }

  /** The supports of a covered list are named by the solution, and listed. */
  lemma SupportsNamed(loads: seq<Element>, sol: map<Unknown, real>)
    requires Covers(loads, sol) && AllValid(loads)
    ensures forall i :: 0 <= i < |Supports(loads)| ==> Named(Supports(loads)[i], sol) && Supports(loads)[i].Valid()
    ensures (set r | r in Supports(loads)) <= SupportSet(loads)
  {
    var rs := Supports(loads);
    forall r | r in rs
      ensures r in SupportSet(loads)
    {
      SupportsMembers(loads, r);
    }
  }

  lemma SupportsListed(loads: seq<Element>)
    ensures forall i :: 0 <= i < |loads| && loads[i].SupportE? ==> loads[i].r in Supports(loads)
  {
    forall i | 0 <= i < |loads| && loads[i].SupportE?
      ensures loads[i].r in Supports(loads)
    {
      SupportsMembers(loads, loads[i].r);
    }
  }

  /**
   * After fast_solve on a fresh beam, with elements that lie on the beam with their
   * constructors' fields and the stored answer solving the beam's equations, the shear and
   * the bending moment are 0 at the end of the beam.
   */
  lemma SolvedBeamCloses(b: Beam, loads: seq<Element>, sol: map<Unknown, real>)
    requires b.fy == Plus(Zero(), Total(Fy, loads)) && b.m == Plus(Zero(), Total(Moment(0.0), loads))
    requires b.solvedRxns == Some(sol) && b.Solves(sol)
    requires AllOnBeam(loads, b.length) && Covers(loads, sol) && AllWritten(loads, sol)
    requires b.shearFn == Some(ShearDiagram(loads, b.length)) && b.momFn == Some(MomentDiagram(loads, b.length))
    ensures b.ShearAt(b.length) == 0.0 && b.MomentAt(b.length) == 0.0
  {
    Closes(loads, b.length, sol, b.fy, b.m);
  }
}
