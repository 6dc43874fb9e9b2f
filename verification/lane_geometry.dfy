/**
 * Geometry helpers of the lane-line extrapolator: a segment's slope and
 * intercept, the horizontal projection of a line at a given y, Python's
 * `int()` on a float, and the top/bottom reordering of a detected segment.
 * Slopes and intercepts are exact reals (every quantity is a ratio of
 * integers); IEEE rounding is not modelled.
 */
module LaneGeometry {

  /** A segment (x1, y1, x2, y2) in pixel coordinates; y grows downwards. */
  datatype Segment = Segment(x1: int, y1: int, x2: int, y2: int)

  /** The line y = m * x + b. */
  datatype Line = Line(m: real, b: real)

  /** Slope and intercept of the segment through (x1, y1) and (x2, y2);
      a vertical segment is given slope 0 and intercept y1. */
  function GetSegment(x1: int, y1: int, x2: int, y2: int): (l: Line)
    ensures x1 == x2 ==> l.m == 0.0 && l.b == y1 as real
    ensures x1 != x2 ==> l.m * x1 as real + l.b == y1 as real
    ensures x1 != x2 ==> l.m * x2 as real + l.b == y2 as real
  {
    var vy := y2 - y1;
    var vx := x2 - x1;
    var m := if vx == 0 then 0.0 else vy as real / vx as real;
    assert vx != 0 ==> m * vx as real == vy as real;
    Line(m, y1 as real - m * x1 as real)
  }

  /** The x at which the line y = m * x + b reaches height y. */
  function GetPointHorizontal(m: real, b: real, y: real): (x: real)
    requires m != 0.0
    ensures m * x + b == y
  {
    (y - b) / m
  }

  /** Python's `int()` on a float: truncation toward zero. */
  function TruncToInt(r: real): (i: int)
    ensures 0.0 <= r ==> i as real <= r < i as real + 1.0
    ensures r < 0.0 ==> i as real - 1.0 < r <= i as real
  {
    if r >= 0.0 then r.Floor else -((-r).Floor)
  }

  /** Reorders a detected segment so that its point with the larger y comes
      second; a segment whose two y values are equal is swapped too. */
  function Normalize(s: Segment): (n: Segment)
    ensures n.y1 <= n.y2
    ensures || ((n.x1, n.y1) == (s.x1, s.y1) && (n.x2, n.y2) == (s.x2, s.y2))
            || ((n.x1, n.y1) == (s.x2, s.y2) && (n.x2, n.y2) == (s.x1, s.y1))
    ensures s.y1 == s.y2 ==> n.x1 == s.x2 && n.x2 == s.x1
    ensures s.y1 < s.y2 ==> n == s
  {
    if s.y2 > s.y1 then s else Segment(s.x2, s.y2, s.x1, s.y1)
  }

  /** An integer truncated from a real is the real itself when it is whole. */
  lemma TruncOfWhole(k: int)
    ensures TruncToInt(k as real) == k
  {
  }
}
