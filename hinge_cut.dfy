/**
 * The UDL case of add_hinge as the code is written. The test meant to ask whether a UDL
 * reaches across the hinge is `end > hinge.pos & start < hinge.pos`; `&` binds tighter than
 * the comparisons, so it reads as the chain end > (hinge.pos & start) < hinge.pos, a bitwise
 * and of two positions. It is defined on integer positions only (on floats it raises a
 * TypeError), so this module works on natural-number positions.
 */
module HingeCut {
  import opened LinearForms
  import opened Loads
  import opened Equilibrium

  /** Python's `&` on non-negative integers. */
  function BitAnd(a: nat, b: nat): (r: nat)
    ensures r <= a && r <= b
    decreases a
  {
    if a == 0 || b == 0 then 0
    else 2 * BitAnd(a / 2, b / 2) + (if a % 2 == 1 && b % 2 == 1 then 1 else 0)
  }

  /** The test of the UDL case as Python parses it. */
  predicate UdlCutTest(start: nat, end: nat, hpos: nat)
  {
    var b := BitAnd(hpos, start);
    end > b && b < hpos
  }

  /**
   * What the UDL case adds to m_hinge as written, for a UDL `u` whose start and end are the
   * integers `start` and `end` and a hinge at the integer `hpos`. When the test passes, the
   * UDL is replaced by a cut one built with the default inverted=True from the already signed
   * intensity, over hinge.pos - end (left side) or end - hinge.pos (right side).
   */
  function UdlHingeMomentAsWritten(u: Udl, start: nat, end: nat, hpos: nat, side: string): real
  {
    if UdlCutTest(start, end, hpos) then
      var cut := if |side| > 0 && side[0] == 'l' then NewUdl(u.start, u.loadpm, hpos as real - u.end)
                 else NewUdl(hpos as real, u.loadpm, u.end - hpos as real);
      cut.netload * (cut.pos - hpos as real)
    else u.netload * (u.pos - hpos as real)
  }

  /**
   * The test passes for the UDL that starts at 0 whenever the hinge lies to the right of the
   * UDL's end, although such a UDL does not reach the hinge.
   */
  lemma UdlAtOriginIsCut(end: nat, hpos: nat)
    requires 0 < end < hpos
    ensures UdlCutTest(0, end, hpos)
  {
  }

  /**
   * A hinge at 6 with, on its left, the default (downward) 10 kN/m UDL over [0, 4]. The UDL
   * does not reach the hinge, and its moment about the hinge is (2 - 6) * (-40) = 160; the
   * code as written adds -100 instead.
   */
  lemma UdlHingeCounterexample()
    ensures var u, h := NewUdl(0.0, 10.0, 4.0), Hinge(6.0, "l");
      && ValidUdl(u) && OnSide(UdlE(u), h) && !(u.start < h.pos < u.end)
      && Part(HingeMoment(h), UdlE(u)) == Const(160.0)
      && UdlHingeMomentAsWritten(u, 0, 4, 6, "l") == -100.0
  {
    var u := NewUdl(0.0, 10.0, 4.0);
    UdlAtOriginIsCut(4, 6);
    assert u.loadpm == -10.0 && u.netload == -40.0 && u.pos == 2.0;
    var cut := NewUdl(u.start, u.loadpm, 6.0 - u.end);
    assert cut.loadpm == 10.0 && cut.netload == 20.0 && cut.pos == 1.0;
  }

  /**
   * The UVL test of add_hinge, start < hinge.pos & end > hinge.pos, reads as
   * start < (hinge.pos & end) > hinge.pos, and hinge.pos & end never exceeds hinge.pos: on
   * non-negative integer positions the UVL case always takes its uncut branch.
   */
  lemma UvlCutTestNever(start: nat, end: nat, hpos: nat)
    ensures !(start < BitAnd(hpos, end) && BitAnd(hpos, end) > hpos)
  {
  }
}
