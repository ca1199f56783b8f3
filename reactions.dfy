/**
 * The two halves of calculate_reactions that do not belong to the solver: collecting the
 * unknowns of the supports in order, and writing the solved values back onto the supports.
 * Both versions of the beam do this the same way.
 */
module Reactions {
  import opened LinearForms
  import opened Loads
  import opened Equilibrium

  /** The unknowns handed to the solver: per support, in order, rx, ry and mom where present. */
  function UnknownList(rxns: seq<Reaction>): seq<Unknown>
    decreases |rxns|
  {
    if rxns == [] then []
    else UnknownList(rxns[..|rxns| - 1]) + rxns[|rxns| - 1].Unknowns()
  }

  /** How many unknowns a support of this kind carries. */
  function Carried(kind: SupportKind): nat
  {
    match kind
    case Roller => 1
    case Pin => 2
    case Fixed => 3
  }

  function CarriedTotal(rxns: seq<Reaction>): nat
    decreases |rxns|
  {
    if rxns == [] then 0
    else CarriedTotal(rxns[..|rxns| - 1]) + Carried(rxns[|rxns| - 1].kind)
  }

  /** A roller adds one unknown, a hinge two and a fixed support three. */
  lemma {:induction false} UnknownListLength(rxns: seq<Reaction>)
    ensures |UnknownList(rxns)| == CarriedTotal(rxns)
    decreases |rxns|
  {
    if rxns != [] {
      UnknownListLength(rxns[..|rxns| - 1]);
    }
  }

  /** An unknown is in the list exactly when one of the supports carries it. */
  lemma {:induction false} UnknownListMembers(rxns: seq<Reaction>, u: Unknown)
    ensures u in UnknownList(rxns) <==> exists i :: 0 <= i < |rxns| && u in rxns[i].Unknowns()
    decreases |rxns|
  {
    if rxns != [] {
      var n := |rxns| - 1;
      var front, last := rxns[..n], rxns[n];
      UnknownListMembers(front, u);
      assert UnknownList(rxns) == UnknownList(front) + last.Unknowns();
      assert forall i :: 0 <= i < n ==> front[i] == rxns[i];
    }
  }

  /** The unknowns a support carries, component by component. */
  lemma UnknownsOf(r: Reaction, u: Unknown)
    ensures u in r.Unknowns() <==> u == YOf(r) || (HasX(r.kind) && u == XOf(r)) || (HasM(r.kind) && u == MOf(r))
  {
  }

  /** The loop of calculate_reactions that builds eval_values. */
  method CollectUnknowns(rxns: seq<Reaction>) returns (evalValues: seq<Unknown>)
    ensures evalValues == UnknownList(rxns)
  {
    evalValues := [];
    for i := 0 to |rxns|
      invariant evalValues == UnknownList(rxns[..i])
    {
      var r := rxns[i];
      var before := evalValues;
      if HasX(r.kind) {
        evalValues := evalValues + [XOf(r)];
      }
      evalValues := evalValues + [YOf(r)];
      if HasM(r.kind) {
        evalValues := evalValues + [MOf(r)];
      }
      assert evalValues == before + r.Unknowns();
      assert rxns[..i + 1][..i] == rxns[..i];
    }
    assert rxns[..|rxns|] == rxns;
  }

  /** The solver's answer names every unknown the support carries. */
  predicate Named(r: Reaction, sol: map<Unknown, real>)
  {
    forall u :: u in r.Unknowns() ==> u in sol
  }

  lemma NamedComponents(r: Reaction, sol: map<Unknown, real>)
    requires Named(r, sol)
    ensures YOf(r) in sol
    ensures HasX(r.kind) ==> XOf(r) in sol
    ensures HasM(r.kind) ==> MOf(r) in sol
  {
    UnknownsOf(r, YOf(r));
    UnknownsOf(r, XOf(r));
    UnknownsOf(r, MOf(r));
  }

  /**
   * What a support holds after write-back: each component it carries has its value from
   * `sol`, and a component it does not carry is still 0.
   */
  ghost predicate Written(r: Reaction, sol: map<Unknown, real>)
    reads r
  {
    && YOf(r) in sol && r.ryVal == sol[YOf(r)]
    && (if HasX(r.kind) then XOf(r) in sol && r.rxVal == sol[XOf(r)] else r.rxVal == 0.0)
    && (if HasM(r.kind) then MOf(r) in sol && r.momVal == sol[MOf(r)] else r.momVal == 0.0)
  }

  /**
   * The write-back loop of calculate_reactions: every component a support carries gets its
   * solved value; the others are not touched.
   */
  method WriteBack(rxns: seq<Reaction>, sol: map<Unknown, real>)
    requires forall i :: 0 <= i < |rxns| ==> Named(rxns[i], sol) && rxns[i].Valid()
    modifies set r | r in rxns
    ensures forall r :: r in rxns ==> Written(r, sol)
  {
    for i := 0 to |rxns|
      invariant forall r :: r in rxns[..i] ==> Written(r, sol)
      invariant forall r :: r in rxns && r !in rxns[..i] ==>
        r.rxVal == old(r.rxVal) && r.ryVal == old(r.ryVal) && r.momVal == old(r.momVal)
    {
      var r := rxns[i];
      NamedComponents(r, sol);
      if HasX(r.kind) {
        r.rxVal := sol[XOf(r)];
      }
      r.ryVal := sol[YOf(r)];
      if HasM(r.kind) {
        r.momVal := sol[MOf(r)];
      }
      assert rxns[..i + 1] == rxns[..i] + [r];
    }
    assert rxns[..|rxns|] == rxns;
  }
}
