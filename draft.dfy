/**
 * The first version of the beam: the same sums fx, fy and m, three equilibrium equations
 * (there are no internal hinges yet), write-back of the solved reactions and the two
 * Macaulay equations. It only knows point loads, UDLs, supports and point moments (and the
 * plain Load base class, which every sum ignores); an unknown support type is a NameError.
 */
module DraftBeam {
  import opened Outcomes
  import opened LinearForms
  import opened Loads
  import opened Equilibrium
  import opened Diagrams
  import opened Reactions

  /** The element kinds this version defines: no UVL and no Hinge. */
  predicate DraftElement(e: Element)
  {
    !e.UvlE? && !e.HingeE?
  }

  predicate DraftElements(loads: seq<Element>)
  {
    forall i :: 0 <= i < |loads| ==> DraftElement(loads[i])
  }

  /** The support type named by `typ` after lower-casing; anything else is a NameError. */
  function ParseDraftSupport(typ: string): (r: Result<SupportKind>)
    ensures r.Err? ==> r.error == NameError("Unidentified support type: " + Lower(typ))
  {
    var t := Lower(typ);
    if t == "roller" || t == "r" then Ok(Roller)
    else if t == "hinge" || t == "h" then Ok(Pin)
    else if t == "fixed" || t == "f" then Ok(Fixed)
    else Err(NameError("Unidentified support type: " + t))
  }

  /**
   * Both versions accept the same type strings and build the same support from each; they
   * differ only in the exception a bad type raises (NameError here, ValueError later), which
   * carries the same message.
   */
  lemma DraftSupportAgrees(typ: string)
    ensures ParseDraftSupport(typ).Ok? <==> ParseSupport(typ).Ok?
    ensures ParseDraftSupport(typ).Ok? ==> ParseDraftSupport(typ).value == ParseSupport(typ).value
    ensures ParseDraftSupport(typ).Err? ==>
      ParseDraftSupport(typ).error.NameError? && ParseSupport(typ).error.ValueError? &&
      ParseDraftSupport(typ).error.message == ParseSupport(typ).error.message
  {
  }

  /** Reaction(pos, type, pos_sym) of this version. */
  method NewDraftReaction(pos: real, typ: string, posSym: string) returns (res: Result<Reaction>)
    ensures res.Ok? <==> ParseDraftSupport(typ).Ok?
    ensures res.Err? ==> res.error == NameError("Unidentified support type: " + Lower(typ))
    ensures res.Ok? ==> fresh(res.value)
    ensures res.Ok? ==> res.value.pos == pos && res.value.typ == Lower(typ) && res.value.name == posSym
    ensures res.Ok? ==> res.value.kind == ParseDraftSupport(typ).value
    ensures res.Ok? ==> res.value.rxVal == 0.0 && res.value.ryVal == 0.0 && res.value.momVal == 0.0
  {
    var kind := ParseDraftSupport(typ);
    if kind.Err? {
      return Err(kind.error);
    }
    var r := new Reaction(pos, Lower(typ), kind.value, posSym);
    return Ok(r);
  }

  class Beam {
    const length: real
    /** The sums of horizontal forces, vertical forces and moments. */
    var fx: LinearForm
    var fy: LinearForm
    var m: LinearForm
    var solvedRxns: Option<map<Unknown, real>>
    /** The Macaulay equations, once generated (None while they are still the initial 0). */
    var shearFn: Option<seq<MacaulayTerm>>
    var momFn: Option<seq<MacaulayTerm>>

    constructor (length: real)
      ensures this.length == length
      ensures fx == Zero() && fy == Zero() && m == Zero()
      ensures solvedRxns == None && shearFn == None && momFn == None
      ensures Valid()
    {
      this.length := length;
      fx, fy, m := Zero(), Zero(), Zero();
      solvedRxns, shearFn, momFn := None, None, None;
    }

    function ShearAt(x: real): real
      reads this
      requires shearFn.Some?
    {
      Value(shearFn.value, x)
    }

    function MomentAt(x: real): real
      reads this
      requires momFn.Some?
    {
      Value(momFn.value, x)
    }

    ghost predicate Valid()
      reads this
    {
      Canonical(fx) && Canonical(fy) && Canonical(m)
    }

    /** The three equations calculate_reactions hands to the solver hold under `sol`. */
    ghost predicate Solves(sol: map<Unknown, real>)
      reads this
    {
      Vanishes(fx, sol) && Vanishes(fy, sol) && Vanishes(m, sol)
    }

    /** add_loads: point loads and supports add to fx and fy, a UDL its resultant to fy. */
    method AddLoads(loads: seq<Element>)
      requires Valid() && DraftElements(loads)
      modifies this
      ensures Valid()
      ensures fx == Plus(old(fx), Total(Fx, loads)) && fy == Plus(old(fy), Total(Fy, loads))
      ensures m == old(m)
      ensures solvedRxns == old(solvedRxns) && shearFn == old(shearFn) && momFn == old(momFn)
    {
      PlusZero(fx);
      PlusZero(fy);
      for i := 0 to |loads|
        invariant Valid()
        invariant fx == Plus(old(fx), Total(Fx, loads[..i])) && fy == Plus(old(fy), Total(Fy, loads[..i]))
        invariant m == old(m)
        invariant solvedRxns == old(solvedRxns) && shearFn == old(shearFn) && momFn == old(momFn)
      {
        PlusAssoc(old(fx), Total(Fx, loads[..i]), Part(Fx, loads[i]));
        PlusAssoc(old(fy), Total(Fy, loads[..i]), Part(Fy, loads[i]));
        fx := Plus(fx, Part(Fx, loads[i]));
        fy := Plus(fy, Part(Fy, loads[i]));
        assert loads[..i + 1][..i] == loads[..i];
      }
      assert loads[..|loads|] == loads;
    }

    /** add_moments: every element adds its moment about `about` to m. */
    method AddMoments(momGens: seq<Element>, about: real := 0.0)
      requires Valid() && DraftElements(momGens)
      modifies this
      ensures Valid()
      ensures m == Plus(old(m), Total(Moment(about), momGens))
      ensures fx == old(fx) && fy == old(fy)
      ensures solvedRxns == old(solvedRxns) && shearFn == old(shearFn) && momFn == old(momFn)
    {
      PlusZero(m);
      for i := 0 to |momGens|
        invariant Valid()
        invariant m == Plus(old(m), Total(Moment(about), momGens[..i]))
        invariant fx == old(fx) && fy == old(fy)
        invariant solvedRxns == old(solvedRxns) && shearFn == old(shearFn) && momFn == old(momFn)
      {
        PlusAssoc(old(m), Total(Moment(about), momGens[..i]), Part(Moment(about), momGens[i]));
        m := Plus(m, Part(Moment(about), momGens[i]));
        assert momGens[..i + 1][..i] == momGens[..i];
      }
      assert momGens[..|momGens|] == momGens;
    }

    /**
     * calculate_reactions: the unknowns in order, the solver's answer `sol` to the three
     * equations, and the solved values written back onto the supports.
     */
    method CalculateReactions(rxns: seq<Reaction>, sol: map<Unknown, real>) returns (evalValues: seq<Unknown>)
      requires forall i :: 0 <= i < |rxns| ==> Named(rxns[i], sol) && rxns[i].Valid()
      requires Solves(sol)
      modifies this, set r | r in rxns
      ensures evalValues == UnknownList(rxns)
      ensures solvedRxns == Some(sol) && Solves(sol)
      ensures forall r :: r in rxns ==> Written(r, sol)
      ensures fx == old(fx) && fy == old(fy) && m == old(m)
      ensures shearFn == old(shearFn) && momFn == old(momFn)
    {
      evalValues := CollectUnknowns(rxns);
      solvedRxns := Some(sol);
      WriteBack(rxns, sol);
    }

    /** generate_moment_equation: the moment terms of every element, in order. */
    method GenerateMomentEquation(loads: seq<Element>)
      requires momFn.None? && DraftElements(loads)
      modifies this
      ensures momFn == Some(MomentDiagram(loads, length))
      ensures fx == old(fx) && fy == old(fy) && m == old(m)
      ensures solvedRxns == old(solvedRxns) && shearFn == old(shearFn)
    {
      var fn: seq<MacaulayTerm> := [];
      for i := 0 to |loads|
        invariant fn == MomentDiagram(loads[..i], length)
      {
        assert loads[..i + 1][..i] == loads[..i];
        fn := fn + MomentTerms(loads[i], length);
      }
      assert loads[..|loads|] == loads;
      assert fn == MomentDiagram(loads, length);
      assert forall r :: r in SupportSet(loads) ==> r as object != this as object;
      momFn := Some(fn);
    }

    /** generate_shear_equation: the shear terms of every element, in order. */
    method GenerateShearEquation(loads: seq<Element>)
      requires shearFn.None? && DraftElements(loads)
      modifies this
      ensures shearFn == Some(ShearDiagram(loads, length))
      ensures fx == old(fx) && fy == old(fy) && m == old(m)
      ensures solvedRxns == old(solvedRxns) && momFn == old(momFn)
    {
      var fn: seq<MacaulayTerm> := [];
      for i := 0 to |loads|
        invariant fn == ShearDiagram(loads[..i], length)
      {
        assert loads[..i + 1][..i] == loads[..i];
        fn := fn + ShearTerms(loads[i], length);
      }
      assert loads[..|loads|] == loads;
      assert fn == ShearDiagram(loads, length);
      assert forall r :: r in SupportSet(loads) ==> r as object != this as object;
      shearFn := Some(fn);
    }
  }

  /**
   * On a fresh draft beam: after add_loads and add_moments over the load list, an answer to
   * the three equations, written back onto the supports, closes both diagrams at the end of
   * the beam.
   */
  lemma DraftCloses(b: Beam, loads: seq<Element>, sol: map<Unknown, real>)
    requires DraftElements(loads)
    requires b.fy == Plus(Zero(), Total(Fy, loads)) && b.m == Plus(Zero(), Total(Moment(0.0), loads))
    requires b.Solves(sol)
    requires AllOnBeam(loads, b.length) && Covers(loads, sol) && AllWritten(loads, sol)
    requires b.shearFn == Some(ShearDiagram(loads, b.length)) && b.momFn == Some(MomentDiagram(loads, b.length))
    ensures b.ShearAt(b.length) == 0.0 && b.MomentAt(b.length) == 0.0
  {
    PlusZero(Total(Fy, loads));
    PlusZero(Total(Moment(0.0), loads));
    DiagramsClose(loads, b.length, sol);
  }
}
