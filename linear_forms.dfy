/**
 * Linear expressions over the symbolic reaction unknowns, as the engine's running sums hold
 * them: a constant plus one coefficient per unknown. A form is kept canonical (no unknown is
 * stored with coefficient 0, as 0*R_A_y simplifies away symbolically), so that two forms
 * denote the same expression exactly when they are equal values.
 */
module LinearForms {

  /** Which component of a support reaction an unknown stands for. */
  datatype Component = X | Y | M

  /** A reaction unknown: the support's name (pos_sym) and the component. */
  datatype Unknown = Unknown(name: string, comp: Component)

  datatype LinearForm = LF(constant: real, coef: map<Unknown, real>)

  ghost predicate Canonical(f: LinearForm)
  {
    forall u :: u in f.coef ==> f.coef[u] != 0.0
  }

  /** The coefficient of `u` in `f` (0 when `u` does not occur). */
  function Coef(f: LinearForm, u: Unknown): real
  {
    if u in f.coef then f.coef[u] else 0.0
  }

  function Zero(): (r: LinearForm)
    ensures Canonical(r)
  {
    LF(0.0, map[])
  }

  /** A known number, with no unknowns. */
  function Const(c: real): (r: LinearForm)
    ensures Canonical(r)
  {
    LF(c, map[])
  }

  /** The single term c * u. */
  function Mono(u: Unknown, c: real): (r: LinearForm)
    ensures Canonical(r)
    ensures r.constant == 0.0
    ensures r.coef.Keys <= {u}
    ensures forall v :: Coef(r, v) == if v == u then c else 0.0
  {
    if c == 0.0 then LF(0.0, map[]) else LF(0.0, map[u := c])
  }

  /** The sum of two expressions (sympy's `+=` on the running sums). */
  function Plus(f: LinearForm, g: LinearForm): (r: LinearForm)
    ensures Canonical(r)
    ensures r.constant == f.constant + g.constant
    ensures r.coef.Keys <= f.coef.Keys + g.coef.Keys
    ensures forall u :: Coef(r, u) == Coef(f, u) + Coef(g, u)
  {
    LF(f.constant + g.constant,
       map u | u in f.coef.Keys + g.coef.Keys && Coef(f, u) + Coef(g, u) != 0.0
             :: Coef(f, u) + Coef(g, u))
  }

  /** Two canonical forms with the same constant and coefficients are the same form. */
  lemma Ext(f: LinearForm, g: LinearForm)
    requires Canonical(f) && Canonical(g)
    requires f.constant == g.constant
    requires forall u :: Coef(f, u) == Coef(g, u)
    ensures f == g
  {
    forall u
      ensures u in f.coef <==> u in g.coef
    {
      assert Coef(f, u) == Coef(g, u);
    }
    forall u | u in f.coef
      ensures f.coef[u] == g.coef[u]
    {
      assert Coef(f, u) == Coef(g, u);
    }
    assert f.coef == g.coef;
  }

  lemma PlusZero(f: LinearForm)
    requires Canonical(f)
    ensures Plus(f, Zero()) == f
    ensures Plus(Zero(), f) == f
  {
    Ext(Plus(f, Zero()), f);
    Ext(Plus(Zero(), f), f);
  }

  lemma PlusComm(f: LinearForm, g: LinearForm)
    ensures Plus(f, g) == Plus(g, f)
  {
    Ext(Plus(f, g), Plus(g, f));
  }

  lemma PlusAssoc(f: LinearForm, g: LinearForm, h: LinearForm)
    ensures Plus(Plus(f, g), h) == Plus(f, Plus(g, h))
  {
    Ext(Plus(Plus(f, g), h), Plus(f, Plus(g, h)));
  }

  /** (a + b) + (c + d) == (a + c) + (b + d). */
  lemma PlusInterchange(a: LinearForm, b: LinearForm, c: LinearForm, d: LinearForm)
    ensures Plus(Plus(a, b), Plus(c, d)) == Plus(Plus(a, c), Plus(b, d))
  {
    Ext(Plus(Plus(a, b), Plus(c, d)), Plus(Plus(a, c), Plus(b, d)));
  }

  lemma Distribute(k: real, a: real, b: real)
    ensures k * (a + b) == k * a + k * b
    ensures (a + b) * k == a * k + b * k
  {
  }

  // ---------------------------------------------------------------------------------------
  // Substituting numbers for the unknowns
  // ---------------------------------------------------------------------------------------

  /** The contribution Coef(f, u) * sol[u] of one unknown. */
  function Term(f: LinearForm, u: Unknown, sol: map<Unknown, real>): real
    requires u in sol
  {
    Coef(f, u) * sol[u]
  }

  /** Sum of Term(f, u, sol) over the unknowns in `keys`. */
  ghost function Dot(keys: set<Unknown>, f: LinearForm, sol: map<Unknown, real>): real
    requires keys <= sol.Keys
    decreases keys
  {
    if keys == {} then 0.0
    else
      var u :| u in keys;
      Term(f, u, sol) + Dot(keys - {u}, f, sol)
  }

  /** The value of `f` once every unknown it mentions is replaced by its value in `sol`. */
  ghost function Eval(f: LinearForm, sol: map<Unknown, real>): real
    requires f.coef.Keys <= sol.Keys
  {
    f.constant + Dot(f.coef.Keys, f, sol)
  }

  /** `sol` gives every unknown of `f` a value and makes `f` vanish. */
  ghost predicate Vanishes(f: LinearForm, sol: map<Unknown, real>)
  {
    f.coef.Keys <= sol.Keys && Eval(f, sol) == 0.0
  }

  lemma {:induction false} DotPick(keys: set<Unknown>, u: Unknown, f: LinearForm, sol: map<Unknown, real>)
    requires keys <= sol.Keys && u in keys
    ensures Dot(keys, f, sol) == Term(f, u, sol) + Dot(keys - {u}, f, sol)
    decreases |keys|
  {
    var v :| v in keys && Dot(keys, f, sol) == Term(f, v, sol) + Dot(keys - {v}, f, sol);
    if v != u {
      DotPick(keys - {v}, u, f, sol);
      DotPick(keys - {u}, v, f, sol);
      assert keys - {v} - {u} == keys - {u} - {v};
    }
  }

  lemma TermPlus(f: LinearForm, g: LinearForm, u: Unknown, sol: map<Unknown, real>)
    requires u in sol
    ensures Term(Plus(f, g), u, sol) == Term(f, u, sol) + Term(g, u, sol)
  {
    var a, b, c := Coef(Plus(f, g), u), Coef(f, u), Coef(g, u);
    assert a == b + c;
    Distribute(sol[u], b, c);
  }

  lemma {:induction false} DotPlus(keys: set<Unknown>, f: LinearForm, g: LinearForm, sol: map<Unknown, real>)
    requires keys <= sol.Keys
    ensures Dot(keys, Plus(f, g), sol) == Dot(keys, f, sol) + Dot(keys, g, sol)
    decreases |keys|
  {
    if keys != {} {
      var u :| u in keys;
      DotPick(keys, u, Plus(f, g), sol);
      DotPick(keys, u, f, sol);
      DotPick(keys, u, g, sol);
      DotPlus(keys - {u}, f, g, sol);
      TermPlus(f, g, u, sol);
    }
  }

  /** Unknowns with coefficient 0 add nothing to the sum. */
  lemma {:induction false} DotIgnore(keys: set<Unknown>, extra: set<Unknown>, f: LinearForm, sol: map<Unknown, real>)
    requires keys + extra <= sol.Keys && keys !! extra
    requires forall u :: u in extra ==> Coef(f, u) == 0.0
    ensures Dot(keys + extra, f, sol) == Dot(keys, f, sol)
    decreases |extra|
  {
    if extra != {} {
      var u :| u in extra;
      DotPick(keys + extra, u, f, sol);
      assert (keys + extra) - {u} == keys + (extra - {u});
      DotIgnore(keys, extra - {u}, f, sol);
    } else {
      assert keys + extra == keys;
    }
  }

  /** The value of `f` may be computed over any finite superset of its unknowns. */
  lemma EvalOver(keys: set<Unknown>, f: LinearForm, sol: map<Unknown, real>)
    requires f.coef.Keys <= keys <= sol.Keys
    ensures Eval(f, sol) == f.constant + Dot(keys, f, sol)
  {
    var extra := keys - f.coef.Keys;
    assert keys == f.coef.Keys + extra;
    DotIgnore(f.coef.Keys, extra, f, sol);
  }

  lemma EvalPlus(f: LinearForm, g: LinearForm, sol: map<Unknown, real>)
    requires f.coef.Keys <= sol.Keys && g.coef.Keys <= sol.Keys
    ensures Plus(f, g).coef.Keys <= sol.Keys
    ensures Eval(Plus(f, g), sol) == Eval(f, sol) + Eval(g, sol)
  {
    var keys := f.coef.Keys + g.coef.Keys;
    EvalOver(keys, Plus(f, g), sol);
    EvalOver(keys, f, sol);
    EvalOver(keys, g, sol);
    DotPlus(keys, f, g, sol);
  }

  lemma EvalMono(u: Unknown, c: real, sol: map<Unknown, real>)
    requires u in sol
    ensures Mono(u, c).coef.Keys <= sol.Keys
    ensures Eval(Mono(u, c), sol) == c * sol[u]
  {
    EvalOver({u}, Mono(u, c), sol);
    DotPick({u}, u, Mono(u, c), sol);
    assert {u} - {u} == {};
  }

  lemma EvalConst(c: real, sol: map<Unknown, real>)
    ensures Eval(Const(c), sol) == c
  {
  }
}
