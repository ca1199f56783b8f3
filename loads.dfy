/**
 * The load objects a beam is loaded with. Their constructors compute every derived field once
 * (sign flips, net load, effective position, gradient); a support (`Reaction`) is an object
 * whose solved values are written back later, so it is a class.
 */
module Loads {
  import opened Outcomes
  import opened LinearForms

  // ---------------------------------------------------------------------------------------
  // ASCII case mapping (str.lower / str.upper on the type and side names)
  // ---------------------------------------------------------------------------------------

  function LowerChar(c: char): char
  {
    if 'A' <= c <= 'Z' then (c as int - 'A' as int + 'a' as int) as char else c
  }

  function UpperChar(c: char): char
  {
    if 'a' <= c <= 'z' then (c as int - 'a' as int + 'A' as int) as char else c
  }

  function Lower(s: string): (r: string)
    ensures |r| == |s|
  {
    seq(|s|, i requires 0 <= i < |s| => LowerChar(s[i]))
  }

  function Upper(s: string): (r: string)
    ensures |r| == |s|
  {
    seq(|s|, i requires 0 <= i < |s| => UpperChar(s[i]))
  }

  /** Lower-casing twice is lower-casing once. */
  lemma LowerIdempotent(s: string)
    ensures Lower(Lower(s)) == Lower(s)
  {
    forall i | 0 <= i < |s|
      ensures Lower(Lower(s))[i] == Lower(s)[i]
    {
      assert Lower(Lower(s))[i] == LowerChar(LowerChar(s[i]));
    }
  }

  /** Upper-casing a string does not change what it lower-cases to. */
  lemma LowerUpper(s: string)
    ensures Lower(Upper(s)) == Lower(s)
  {
    forall i | 0 <= i < |s|
      ensures Lower(Upper(s))[i] == Lower(s)[i]
    {
      assert Lower(Upper(s))[i] == LowerChar(UpperChar(s[i]));
    }
  }

  function Abs(x: real): (r: real)
    ensures r >= 0.0 && (r == x || r == -x)
  {
    if x < 0.0 then -x else x
  }

  function Min(x: real, y: real): (r: real)
    ensures r <= x && r <= y && (r == x || r == y)
  {
    if x <= y then x else y
  }

  // ---------------------------------------------------------------------------------------
  // Load and PointLoad
  // ---------------------------------------------------------------------------------------

  /** A plain load: `load` is the given value, negated when `inverted`. */
  datatype Load = Load(pos: real, load: real, inverted: bool)

  function NewLoad(pos: real, load: real, inverted: bool := false): (l: Load)
    ensures l.pos == pos && l.inverted == inverted
    ensures l.load == (if inverted then -load else load)
  {
    Load(pos, if inverted then -1.0 * load else load, inverted)
  }

  /**
   * A point load. The components are the signed load times the cosine and the sine of the
   * inclination, which are passed in as `cosInc` and `sinInc` (0 and 1 for the default
   * inclination of 90 degrees).
   */
  datatype PointLoad = PointLoad(pos: real, load: real, inverted: bool, inclination: real,
                                 loadX: real, loadY: real)

  function NewPointLoad(pos: real, load: real, inverted: bool := false, inclination: real := 90.0,
                        cosInc: real := 0.0, sinInc: real := 1.0): (p: PointLoad)
    ensures p.pos == pos && p.inverted == inverted && p.inclination == inclination
    ensures p.load == NewLoad(pos, load, inverted).load
    ensures p.loadX == p.load * cosInc && p.loadY == p.load * sinInc
  {
    var base := NewLoad(pos, load, inverted);
    PointLoad(pos, base.load, inverted, inclination, base.load * cosInc, base.load * sinInc)
  }

  /** Inverting a point load reverses both of its components. */
  lemma PointLoadInversion(pos: real, load: real, inclination: real, cosInc: real, sinInc: real)
    ensures NewPointLoad(pos, load, true, inclination, cosInc, sinInc).loadX
         == -NewPointLoad(pos, load, false, inclination, cosInc, sinInc).loadX
    ensures NewPointLoad(pos, load, true, inclination, cosInc, sinInc).loadY
         == -NewPointLoad(pos, load, false, inclination, cosInc, sinInc).loadY
  {
    var up, down := NewPointLoad(pos, load, false, inclination, cosInc, sinInc),
                    NewPointLoad(pos, load, true, inclination, cosInc, sinInc);
    assert down.load == -up.load;
    NegTimes(up.load, cosInc);
    NegTimes(up.load, sinInc);
  }

  lemma NegTimes(a: real, b: real)
    ensures (-a) * b == -(a * b)
  {
  }

  /** With the default inclination the whole load acts vertically. */
  lemma PointLoadVertical(pos: real, load: real, inverted: bool)
    ensures NewPointLoad(pos, load, inverted).loadX == 0.0
    ensures NewPointLoad(pos, load, inverted).loadY == NewLoad(pos, load, inverted).load
  {
  }

  // ---------------------------------------------------------------------------------------
  // UDL
  // ---------------------------------------------------------------------------------------

  /** A uniformly distributed load of `loadpm` per metre over [start, end]. */
  datatype Udl = Udl(start: real, span: real, end: real, inverted: bool, loadpm: real,
                     netload: real, pos: real)

  function NewUdl(start: real, loadpm: real, span: real, inverted: bool := true): (u: Udl)
    ensures u.start == start && u.span == span && u.inverted == inverted
    ensures u.loadpm == (if inverted then -loadpm else loadpm)
  {
    var w := if inverted then -1.0 * loadpm else loadpm;
    Udl(start, span, start + span, inverted, w, w * span, start + span / 2.0)
  }

  /**
   * The derived fields of a UDL: it ends `span` after its start, its resultant is its
   * intensity times its length, and the resultant acts halfway between its ends.
   */
  lemma UdlFields(start: real, loadpm: real, span: real, inverted: bool)
    ensures NewUdl(start, loadpm, span, inverted).end == start + span
    ensures NewUdl(start, loadpm, span, inverted).netload
         == NewUdl(start, loadpm, span, inverted).loadpm * (NewUdl(start, loadpm, span, inverted).end - start)
    ensures NewUdl(start, loadpm, span, inverted).pos - start
         == NewUdl(start, loadpm, span, inverted).end - NewUdl(start, loadpm, span, inverted).pos
    ensures 0.0 <= span ==> start <= NewUdl(start, loadpm, span, inverted).pos <= start + span
  {
  }

  /** The fields of a UDL built by the constructor from a span that is not negative. */
  predicate ValidUdl(u: Udl)
  {
    && 0.0 <= u.span && u.end == u.start + u.span
    && u.netload == u.loadpm * u.span && u.pos == u.start + u.span / 2.0
  }

  lemma NewUdlValid(start: real, loadpm: real, span: real, inverted: bool)
    requires 0.0 <= span
    ensures ValidUdl(NewUdl(start, loadpm, span, inverted))
  {
  }

  /** Inverting a UDL negates its intensity and resultant and keeps its position. */
  lemma UdlInversion(start: real, loadpm: real, span: real)
    ensures NewUdl(start, loadpm, span, true).loadpm == -NewUdl(start, loadpm, span, false).loadpm
    ensures NewUdl(start, loadpm, span, true).netload == -NewUdl(start, loadpm, span, false).netload
    ensures NewUdl(start, loadpm, span, true).pos == NewUdl(start, loadpm, span, false).pos
  {
    NegTimes(loadpm, span);
  }

  // ---------------------------------------------------------------------------------------
  // UVL
  // ---------------------------------------------------------------------------------------

  /**
   * A uniformly varying load from `startload` per metre at `start` to `endload` per metre at
   * `end`: `tload` is its triangular part, `rload` its rectangular part, and `pos` where its
   * resultant `netload` is taken to act.
   */
  datatype Uvl = Uvl(start: real, span: real, end: real, inverted: bool,
                     startload: real, endload: real, gradient: real,
                     tload: real, rload: real, netload: real, pos: real)

  // The derived fields of a UVL with signed end intensities w0, w1 over length `span`.

  function Gradient(w0: real, w1: real, span: real): real
    requires span != 0.0
  {
    (w1 - w0) / span
  }

  function TriangularPart(w0: real, w1: real, span: real): real
  {
    span * Abs(w1 - w0) / 2.0
  }

  function RectangularPart(w0: real, w1: real, span: real): real
  {
    span * Min(Abs(w0), Abs(w1))
  }

  function Resultant(w0: real, w1: real, span: real): real
  {
    span * (w0 + w1) / 2.0
  }

  /**
   * Where the resultant is taken to act: the triangular part at two thirds of the span from
   * the smaller end intensity, the rectangular part at half the span.
   */
  function ResultantPos(start: real, w0: real, w1: real, span: real): real
    requires Resultant(w0, w1, span) != 0.0
  {
    var t, r, n := TriangularPart(w0, w1, span), RectangularPart(w0, w1, span), Abs(Resultant(w0, w1, span));
    if Abs(w1) > Abs(w0) then start + Lever(2.0, t, r, n, span)
    else start + Lever(1.0, t, r, n, span)
  }

  /** (c*t*L/3 + r*L/2) / n: the moment arm of a triangle at c thirds and a rectangle at half of L. */
  function Lever(c: real, t: real, r: real, n: real, L: real): real
    requires n != 0.0
  {
    (c * t * L / 3.0 + r * L / 2.0) / n
  }

  lemma ResultantZero(w0: real, w1: real, span: real)
    requires span != 0.0
    ensures Resultant(w0, w1, span) == 0.0 <==> w0 + w1 == 0.0
  {
    if w0 + w1 != 0.0 {
      assert span * (w0 + w1) != 0.0;
    }
  }

  /**
   * The UVL constructor. The gradient divides by the span and the position by |netload|, so
   * either being 0 is a ZeroDivisionError.
   */
  function NewUvl(start: real, startload: real, span: real, endload: real, inverted: bool := true): (r: Result<Uvl>)
    ensures r.Err? <==> span == 0.0 || startload + endload == 0.0
    ensures r.Err? ==> r.error == ZeroDivisionError
    ensures r.Ok? ==> r.value.start == start && r.value.span == span && r.value.end == start + span
    ensures r.Ok? ==> r.value.inverted == inverted
    ensures r.Ok? ==> r.value.startload == (if inverted then -startload else startload)
    ensures r.Ok? ==> r.value.endload == (if inverted then -endload else endload)
    ensures r.Ok? ==> Resultant(r.value.startload, r.value.endload, span) != 0.0
    ensures r.Ok? ==> var v := r.value;
              && v.gradient == Gradient(v.startload, v.endload, span)
              && v.tload == TriangularPart(v.startload, v.endload, span)
              && v.rload == RectangularPart(v.startload, v.endload, span)
              && v.netload == Resultant(v.startload, v.endload, span)
              && v.pos == ResultantPos(start, v.startload, v.endload, span)
  {
    var w0 := if inverted then -1.0 * startload else startload;
    var w1 := if inverted then -1.0 * endload else endload;
    if span == 0.0 then Err(ZeroDivisionError)
    else
      ResultantZero(w0, w1, span);
      if Resultant(w0, w1, span) == 0.0 then Err(ZeroDivisionError)
      else
        Ok(Uvl(start, span, span + start, inverted, w0, w1, Gradient(w0, w1, span),
               TriangularPart(w0, w1, span), RectangularPart(w0, w1, span),
               Resultant(w0, w1, span), ResultantPos(start, w0, w1, span)))
  }

  /** The fields of a UVL built by the constructor from a positive span. */
  predicate ValidUvl(v: Uvl)
  {
    && v.span > 0.0 && v.end == v.start + v.span
    && v.gradient == Gradient(v.startload, v.endload, v.span)
    && Resultant(v.startload, v.endload, v.span) != 0.0
    && v.netload == Resultant(v.startload, v.endload, v.span)
    && v.pos == ResultantPos(v.start, v.startload, v.endload, v.span)
  }

  lemma NewUvlValid(start: real, startload: real, span: real, endload: real, inverted: bool)
    requires span > 0.0 && NewUvl(start, startload, span, endload, inverted).Ok?
    ensures ValidUvl(NewUvl(start, startload, span, endload, inverted).value)
  {
  }

  /** The end intensities have the same sign (or one of them is 0). */
  predicate SameSign(w0: real, w1: real)
  {
    (w0 >= 0.0 && w1 >= 0.0) || (w0 <= 0.0 && w1 <= 0.0)
  }

  lemma PartsSum(w0: real, w1: real, span: real)
    requires span > 0.0 && SameSign(w0, w1)
    ensures TriangularPart(w0, w1, span) + RectangularPart(w0, w1, span) == Abs(Resultant(w0, w1, span))
  {
    var d, m, s := Abs(w1 - w0), Min(Abs(w0), Abs(w1)), Abs(w0 + w1);
    assert d / 2.0 + m == s / 2.0;
    assert span * d / 2.0 + span * m == span * (d / 2.0 + m);
    AbsHalfTimes(span, w0 + w1);
  }

  lemma AbsHalfTimes(span: real, s: real)
    requires span > 0.0
    ensures Abs(span * s / 2.0) == span * Abs(s) / 2.0
  {
    if s < 0.0 {
      assert span * s < 0.0;
      assert span * (-s) == -(span * s);
    } else {
      assert span * s >= 0.0;
    }
  }

  lemma PosWithin(start: real, w0: real, w1: real, span: real)
    requires span > 0.0 && SameSign(w0, w1) && Resultant(w0, w1, span) != 0.0
    ensures start <= ResultantPos(start, w0, w1, span) <= start + span
  {
    var t, r, n := TriangularPart(w0, w1, span), RectangularPart(w0, w1, span), Abs(Resultant(w0, w1, span));
    PartsSum(w0, w1, span);
    assert 0.0 <= t by {
      assert 0.0 <= span * Abs(w1 - w0);
    }
    assert 0.0 <= r by {
      assert 0.0 <= span * Min(Abs(w0), Abs(w1));
    }
    if Abs(w1) > Abs(w0) {
      CentroidWithin(t, r, n, span, 2.0);
    } else {
      CentroidWithin(t, r, n, span, 1.0);
    }
  }

  /**
   * For end loads of one sign the resultant, placed at `pos`, has the first moment of the
   * whole trapezoid about `start`: span^2 (w0 + 2 w1) / 6.
   */
  lemma FirstMoment(start: real, w0: real, w1: real, span: real)
    requires span > 0.0 && SameSign(w0, w1) && Resultant(w0, w1, span) != 0.0
    ensures Resultant(w0, w1, span) * (ResultantPos(start, w0, w1, span) - start)
         == span * span * (w0 + 2.0 * w1) / 6.0
  {
    if w0 >= 0.0 && w1 >= 0.0 {
      FirstMomentUpward(start, w0, w1, span);
    } else {
      NegatePos(start, w0, w1, span);
      FirstMomentUpward(start, -w0, -w1, span);
      FlipMoment(Resultant(w0, w1, span), Resultant(-w0, -w1, span), ResultantPos(start, w0, w1, span) - start,
                 span * span * (w0 + 2.0 * w1) / 6.0, span * span * (-w0 + 2.0 * -w1) / 6.0);
    }
  }

  lemma FlipMoment(n: real, n': real, arm: real, q: real, q': real)
    requires n' == -n && q' == -q && n' * arm == q'
    ensures n * arm == q
  {
  }

  lemma FirstMomentUpward(start: real, w0: real, w1: real, span: real)
    requires span > 0.0 && w0 >= 0.0 && w1 >= 0.0 && Resultant(w0, w1, span) != 0.0
    ensures Resultant(w0, w1, span) * (ResultantPos(start, w0, w1, span) - start)
         == span * span * (w0 + 2.0 * w1) / 6.0
  {
    var t, r, n := TriangularPart(w0, w1, span), RectangularPart(w0, w1, span), Abs(Resultant(w0, w1, span));
    assert n == Resultant(w0, w1, span) by {
      assert span * (w0 + w1) >= 0.0;
    }
    if w1 > w0 {
      assert Abs(w1) > Abs(w0);
      LeverTimes(2.0, t, r, n, span);
      ArmRising(w0, w1, span, t, r);
    } else {
      assert !(Abs(w1) > Abs(w0));
      LeverTimes(1.0, t, r, n, span);
      ArmFalling(w0, w1, span, t, r);
    }
  }

  lemma LeverTimes(c: real, t: real, r: real, n: real, L: real)
    requires n != 0.0
    ensures Lever(c, t, r, n, L) * n == c * t * L / 3.0 + r * L / 2.0
  {
  }

  /** 0 <= a < b: a rectangle of height a under a triangle rising to b. */
  lemma ArmRising(a: real, b: real, L: real, t: real, r: real)
    requires 0.0 <= a < b
    requires t == TriangularPart(a, b, L) && r == RectangularPart(a, b, L)
    ensures 2.0 * t * L / 3.0 + r * L / 2.0 == L * L * (a + 2.0 * b) / 6.0
  {
    assert Abs(b - a) == b - a && Min(Abs(a), Abs(b)) == a;
    assert t == L * (b - a) / 2.0 && r == L * a;
  }

  /** 0 <= b <= a: a rectangle of height b under a triangle falling from a. */
  lemma ArmFalling(a: real, b: real, L: real, t: real, r: real)
    requires 0.0 <= b <= a
    requires t == TriangularPart(a, b, L) && r == RectangularPart(a, b, L)
    ensures 1.0 * t * L / 3.0 + r * L / 2.0 == L * L * (a + 2.0 * b) / 6.0
  {
    assert Abs(b - a) == a - b && Min(Abs(a), Abs(b)) == b;
    assert t == L * (a - b) / 2.0 && r == L * b;
  }

  /** The arm lies in [0, L] when n = t + r > 0 and 0 <= c <= 3. */
  lemma CentroidWithin(t: real, r: real, n: real, L: real, c: real)
    requires 0.0 <= t && 0.0 <= r && n == t + r && 0.0 < n && 0.0 < L && 0.0 <= c <= 3.0
    ensures 0.0 <= Lever(c, t, r, n, L) <= L
  {
    var num := c * t * L / 3.0 + r * L / 2.0;
    var k := c * t / 3.0 + r / 2.0;
    assert num == L * k;
    assert 0.0 <= k <= n by {
      assert c * t <= 3.0 * t;
    }
    assert 0.0 <= L * k <= L * n;
    DivBound(num, n, L);
  }

  lemma DivBound(x: real, y: real, L: real)
    requires y > 0.0 && 0.0 <= x <= L * y
    ensures 0.0 <= x / y <= L
  {
    assert x / y * y == x;
  }

  /**
   * For end loads of one sign the triangular and rectangular parts make up the whole
   * resultant, and the resultant acts within the loaded length.
   */
  lemma UvlParts(start: real, startload: real, span: real, endload: real, inverted: bool)
    requires span > 0.0
    requires NewUvl(start, startload, span, endload, inverted).Ok?
    requires SameSign(startload, endload)
    ensures var v := NewUvl(start, startload, span, endload, inverted).value;
      && v.tload + v.rload == Abs(v.netload)
      && v.start <= v.pos <= v.end
  {
    var v := NewUvl(start, startload, span, endload, inverted).value;
    assert SameSign(v.startload, v.endload);
    PartsSum(v.startload, v.endload, span);
    PosWithin(start, v.startload, v.endload, span);
  }

  lemma NegateEnds(w0: real, w1: real, span: real)
    requires span != 0.0
    ensures Gradient(-w0, -w1, span) == -Gradient(w0, w1, span)
    ensures TriangularPart(-w0, -w1, span) == TriangularPart(w0, w1, span)
    ensures RectangularPart(-w0, -w1, span) == RectangularPart(w0, w1, span)
    ensures Resultant(-w0, -w1, span) == -Resultant(w0, w1, span)
  {
    assert (-w1) - (-w0) == -(w1 - w0);
    assert Abs((-w1) - (-w0)) == Abs(w1 - w0);
    assert Abs(-w0) == Abs(w0) && Abs(-w1) == Abs(w1);
    assert (-w0) + (-w1) == -(w0 + w1);
    assert span * (-(w0 + w1)) == -(span * (w0 + w1));
  }

  lemma NegatePos(start: real, w0: real, w1: real, span: real)
    requires span != 0.0 && Resultant(w0, w1, span) != 0.0
    ensures Resultant(-w0, -w1, span) != 0.0
    ensures ResultantPos(start, -w0, -w1, span) == ResultantPos(start, w0, w1, span)
  {
    NegateEnds(w0, w1, span);
    var n := Resultant(w0, w1, span);
    assert Abs(-w0) == Abs(w0) && Abs(-w1) == Abs(w1);
    assert Abs(-n) == Abs(n);
  }

  /**
   * Inverting a UVL negates its end loads, gradient and resultant and leaves its triangular
   * and rectangular parts and its position unchanged.
   */
  lemma UvlInversion(start: real, startload: real, span: real, endload: real)
    ensures NewUvl(start, startload, span, endload, true).Ok? == NewUvl(start, startload, span, endload, false).Ok?
    ensures NewUvl(start, startload, span, endload, true).Ok? ==>
      var down, up := NewUvl(start, startload, span, endload, true).value,
                      NewUvl(start, startload, span, endload, false).value;
      && down.startload == -up.startload && down.endload == -up.endload
      && down.gradient == -up.gradient && down.netload == -up.netload
      && down.tload == up.tload && down.rload == up.rload && down.pos == up.pos
  {
    if span != 0.0 && startload + endload != 0.0 {
      ResultantZero(startload, endload, span);
      assert -1.0 * startload == -startload && -1.0 * endload == -endload;
      NegateEnds(startload, endload, span);
      NegatePos(start, startload, endload, span);
    }
  }

  // ---------------------------------------------------------------------------------------
  // PointMoment and Hinge
  // ---------------------------------------------------------------------------------------

  /** A couple at `pos`: `mom` as given when counter-clockwise, negated otherwise. */
  datatype PointMoment = PointMoment(pos: real, ccw: bool, mom: real)

  function NewPointMoment(pos: real, mom: real, ccw: bool := true): (p: PointMoment)
    ensures p.pos == pos && p.ccw == ccw
    ensures ccw ==> p.mom == mom
    ensures !ccw ==> p.mom + mom == 0.0
  {
    PointMoment(pos, ccw, if ccw then mom else -1.0 * mom)
  }

  /** An internal hinge; `side` selects the loads whose moment about it must vanish. */
  datatype Hinge = Hinge(pos: real, side: string)

  predicate ValidSide(side: string)
  {
    side == "r" || side == "right" || side == "l" || side == "left"
  }

  function NewHinge(pos: real, side: string := "l"): (r: Result<Hinge>)
    ensures r.Ok? <==> ValidSide(Lower(side))
    ensures r.Ok? ==> r.value.pos == pos && r.value.side == Lower(side)
    ensures r.Err? ==> r.error.ValueError?
  {
    var s := Lower(side);
    if ValidSide(s) then Ok(Hinge(pos, s))
    else Err(ValueError("Unknown side attribute '" + side + "'\n Use 'l' for left and 'r' for right"))
  }

  /** A hinge that was built successfully has a lower-case side starting with 'l' or 'r'. */
  lemma HingeSide(pos: real, side: string)
    requires NewHinge(pos, side).Ok?
    ensures Lower(NewHinge(pos, side).value.side) == NewHinge(pos, side).value.side
    ensures NewHinge(pos, side).value.side[0] == 'l' || NewHinge(pos, side).value.side[0] == 'r'
    ensures NewHinge(pos, side).value.side[0] == 'l' <==> Lower(side) == "l" || Lower(side) == "left"
  {
    LowerIdempotent(side);
  }

  /** Hinge sides are matched regardless of case. */
  lemma HingeCaseInsensitive(pos: real, side: string)
    ensures NewHinge(pos, Upper(side)).Ok? == NewHinge(pos, side).Ok?
    ensures NewHinge(pos, side).Ok? ==> NewHinge(pos, Upper(side)) == NewHinge(pos, side)
  {
    LowerUpper(side);
  }

  // ---------------------------------------------------------------------------------------
  // Reaction
  // ---------------------------------------------------------------------------------------

  /** The three support types: roller, hinge (called Pin here) and fixed. */
  datatype SupportKind = Roller | Pin | Fixed

  /** The support type named by `typ`, compared after lower-casing. */
  function ParseSupport(typ: string): (r: Result<SupportKind>)
    ensures r.Err? ==> r.error == ValueError("Unidentified support type: " + Lower(typ))
  {
    var t := Lower(typ);
    if t == "roller" || t == "r" then Ok(Roller)
    else if t == "hinge" || t == "h" then Ok(Pin)
    else if t == "fixed" || t == "f" then Ok(Fixed)
    else Err(ValueError("Unidentified support type: " + t))
  }

  /** Support types are matched regardless of case. */
  lemma ParseSupportCaseInsensitive(typ: string)
    ensures ParseSupport(Upper(typ)).Ok? == ParseSupport(typ).Ok?
    ensures ParseSupport(typ).Ok? ==> ParseSupport(Upper(typ)) == ParseSupport(typ)
  {
    LowerUpper(typ);
  }

  /** The accepted spellings, in every case, and nothing else. */
  lemma ParseSupportNames(typ: string)
    ensures ParseSupport(typ) == Ok(Roller) <==> Lower(typ) in ["roller", "r"]
    ensures ParseSupport(typ) == Ok(Pin) <==> Lower(typ) in ["hinge", "h"]
    ensures ParseSupport(typ) == Ok(Fixed) <==> Lower(typ) in ["fixed", "f"]
  {
  }

  predicate HasX(kind: SupportKind) { kind != Roller }

  predicate HasM(kind: SupportKind) { kind == Fixed }

  /**
   * The unknowns a support carries, in the order rx_var, ry_var, mom_var: a roller only Y, a
   * hinge X and Y, a fixed support X, Y and M.
   */
  function SupportUnknowns(kind: SupportKind, name: string): (us: seq<Unknown>)
    ensures |us| == (match kind case Roller => 1 case Pin => 2 case Fixed => 3)
    ensures Unknown(name, Y) in us
    ensures Unknown(name, X) in us <==> HasX(kind)
    ensures Unknown(name, M) in us <==> HasM(kind)
    ensures forall i :: 0 <= i < |us| ==> us[i].name == name
    ensures forall i, j :: 0 <= i < j < |us| ==> us[i].comp != us[j].comp
  {
    match kind
    case Roller => [Unknown(name, Y)]
    case Pin => [Unknown(name, X), Unknown(name, Y)]
    case Fixed => [Unknown(name, X), Unknown(name, Y), Unknown(name, M)]
  }

  /** The sympy symbol of an unknown: R_<name>_x, R_<name>_y or M_<name>. */
  function SymbolName(u: Unknown): string
  {
    match u.comp
    case X => "R_" + u.name + "_x"
    case Y => "R_" + u.name + "_y"
    case M => "M_" + u.name
  }

  /** Distinct unknowns have distinct symbol names. */
  lemma SymbolNameInjective(u: Unknown, v: Unknown)
    requires SymbolName(u) == SymbolName(v)
    ensures u == v
  {
    var s := SymbolName(u);
    match u.comp
    case M =>
      assert s[0] == 'M';
      assert v.comp == M;
      assert u.name == s[2..] == v.name;
    case X =>
      assert s[0] == 'R' && s[|s| - 1] == 'x';
      assert v.comp == X;
      assert u.name == s[2..|s| - 2] == v.name;
    case Y =>
      assert s[0] == 'R' && s[|s| - 1] == 'y';
      assert v.comp == Y;
      assert u.name == s[2..|s| - 2] == v.name;
  }

  /**
   * A support at `pos`. `typ` is the lower-cased type string, `name` the pos_sym its unknowns
   * are named after; rxVal, ryVal and momVal receive the solved values.
   */
  class Reaction {
    const pos: real
    const typ: string
    const kind: SupportKind
    const name: string
    var rxVal: real
    var ryVal: real
    var momVal: real

    constructor (pos: real, typ: string, kind: SupportKind, name: string)
      ensures this.pos == pos && this.typ == typ && this.kind == kind && this.name == name
      ensures rxVal == 0.0 && ryVal == 0.0 && momVal == 0.0
      ensures Valid()
    {
      this.pos := pos;
      this.typ := typ;
      this.kind := kind;
      this.name := name;
      rxVal := 0.0;
      ryVal := 0.0;
      momVal := 0.0;
    }

    function Unknowns(): seq<Unknown>
    {
      SupportUnknowns(kind, name)
    }

    /** A component the support does not carry keeps the value 0 it starts with. */
    predicate Valid()
      reads this
    {
      (!HasX(kind) ==> rxVal == 0.0) && (!HasM(kind) ==> momVal == 0.0)
    }
  }

  /** Reaction(pos, type, pos_sym); an unknown type string is a ValueError. */
  method NewReaction(pos: real, typ: string, posSym: string) returns (res: Result<Reaction>)
    ensures res.Ok? <==> ParseSupport(typ).Ok?
    ensures res.Err? ==> res.error == ParseSupport(typ).error
    ensures res.Ok? ==> fresh(res.value)
    ensures res.Ok? ==> res.value.pos == pos && res.value.typ == Lower(typ) && res.value.name == posSym
    ensures res.Ok? ==> res.value.kind == ParseSupport(typ).value
    ensures res.Ok? ==> res.value.rxVal == 0.0 && res.value.ryVal == 0.0 && res.value.momVal == 0.0
  {
    var kind := ParseSupport(typ);
    if kind.Err? {
      return Err(kind.error);
    }
    var r := new Reaction(pos, Lower(typ), kind.value, posSym);
    return Ok(r);
  }

  // ---------------------------------------------------------------------------------------
  // The elements of a load list
  // ---------------------------------------------------------------------------------------

  /** Anything that may appear in the list handed to the beam. */
  datatype Element =
    | PointE(p: PointLoad)
    | UdlE(u: Udl)
    | UvlE(v: Uvl)
    | MomentE(m: PointMoment)
    | SupportE(r: Reaction)
    | HingeE(h: Hinge)
    | LoadE(l: Load)

  /** The `pos` attribute of an element (a UDL's and a UVL's is where its resultant acts). */
  function Pos(e: Element): real
  {
    match e
    case PointE(p) => p.pos
    case UdlE(u) => u.pos
    case UvlE(v) => v.pos
    case MomentE(m) => m.pos
    case SupportE(r) => r.pos
    case HingeE(h) => h.pos
    case LoadE(l) => l.pos
  }

  /** The Python class name of an element. */
  function ClassName(e: Element): string
  {
    match e
    case PointE(_) => "PointLoad"
    case UdlE(_) => "UDL"
    case UvlE(_) => "UVL"
    case MomentE(_) => "PointMoment"
    case SupportE(_) => "Reaction"
    case HingeE(_) => "Hinge"
    case LoadE(_) => "Load"
  }

  /** The supports in a list of elements, in order (the `rxns` list of fast_solve). */
  function Supports(loads: seq<Element>): (rs: seq<Reaction>)
    ensures |rs| <= |loads|
    decreases |loads|
  {
    if loads == [] then []
    else
      var n := |loads| - 1;
      Supports(loads[..n]) + (if loads[n].SupportE? then [loads[n].r] else [])
  }

  /** The supports listed are exactly the objects the diagrams read. */
  lemma {:induction false} SupportsMembers(loads: seq<Element>, r: Reaction)
    ensures r in Supports(loads) <==> r in SupportSet(loads)
    decreases |loads|
  {
    if loads != [] {
      var n := |loads| - 1;
      SupportsMembers(loads[..n], r);
      assert forall i :: 0 <= i < n ==> loads[..n][i] == loads[i];
      if r in SupportSet(loads) && r !in SupportSet(loads[..n]) {
        var i :| 0 <= i < |loads| && loads[i].SupportE? && loads[i].r == r;
        assert i == n;
      }
    }
  }

  /** The objects a diagram reads: the supports among the elements. */
  function SupportSet(loads: seq<Element>): set<Reaction>
  {
    set i | 0 <= i < |loads| && loads[i].SupportE? :: loads[i].r
  }

  /** Every support among the elements still has 0 in the components it does not carry. */
  predicate AllValid(loads: seq<Element>)
    reads SupportSet(loads)
  {
    forall r :: r in SupportSet(loads) ==> r.Valid()
  }
}
