/**
  The outline path of drawRect. The view builds it by hand on a UIBezierPath
  (move, arc, line, arc, line, arc, line, arc, close) instead of using the
  library's rounded rectangle, which can overshoot and draw part of a side
  twice. This module models the path object, the calls drawRect makes on it,
  and proves that the pieces join end to end, that for a radius that is not
  negative they turn smoothly and never run backwards, and that they measure
  exactly the closed-form path length.

  Angles are whole numbers q of quarter turns (q * pi / 2): 0 points right,
  1 down, 2 left, 3 up (UIKit's y axis points down), and 4 is 2 * pi.
 */
module Path {
  import opened Geometry
  import opened Wrappers

  /**
    The point at distance r from c in direction q: on the circle around c with
    radius r at angle q, or, read as a step, r along direction q.
   */
  function OnCircle(c: Point, r: real, q: int): (p: Point)
    ensures (p.x - c.x) * (p.x - c.x) + (p.y - c.y) * (p.y - c.y) == r * r
  {
    match q % 4
    case 0 => Point(c.x + r, c.y)
    case 1 => Point(c.x, c.y + r)
    case 2 => Point(c.x - r, c.y)
    case _ => Point(c.x, c.y - r)
  }

  /** What a UIBezierPath holds: the calls made on it, with the lines it inserts itself. */
  datatype Element =
    | Move(p: Point)
    | AddLine(p: Point)
    | AddArc(center: Point, radius: real, startQ: int, endQ: int, clockwise: bool)
    | Close

  /** What the path draws: straight lines and circular arcs. */
  datatype Piece =
    | Line(from: Point, to: Point)
    | Arc(center: Point, radius: real, startQ: int, endQ: int, clockwise: bool)

  function Start(pc: Piece): Point
  {
    match pc
    case Line(from, _) => from
    case Arc(c, r, s, _, _) => OnCircle(c, r, s)
  }

  function End(pc: Piece): Point
  {
    match pc
    case Line(_, to) => to
    case Arc(c, r, _, e, _) => OnCircle(c, r, e)
  }

  /** The quarter turns an arc of less than a full turn sweeps in its direction. */
  function Sweep(startQ: int, endQ: int, clockwise: bool): (n: int)
    ensures 0 <= n < 4
    ensures clockwise ==> (startQ + n) % 4 == endQ % 4
    ensures !clockwise ==> (endQ + n) % 4 == startQ % 4
  {
    if clockwise then (endQ - startQ) % 4 else (startQ - endQ) % 4
  }

  /**
    The length of a piece. Every line of the outline is parallel to an axis,
    where the Euclidean length is |dx| + |dy|; an arc of n quarter turns is
    n quarters of the circumference.
   */
  function Length(pc: Piece): (len: real)
    ensures len >= 0.0
  {
    match pc
    case Line(from, to) => Abs(to.x - from.x) + Abs(to.y - from.y)
    case Arc(_, r, s, e, cw) => Pi * Abs(r) * Sweep(s, e, cw) as real / 2.0
  }

  function TotalLength(ps: seq<Piece>): real
  {
    if ps == [] then 0.0 else Length(ps[0]) + TotalLength(ps[1..])
  }

  /** Each piece starts where the one before it ends. */
  ghost predicate Chained(ps: seq<Piece>)
  {
    forall i :: 0 < i < |ps| ==> Start(ps[i]) == End(ps[i - 1])
  }

  /**
    A UIBezierPath under construction: the elements appended so far, the
    pieces they draw, the current point (none before the first move) and the
    start of the current subpath, where closePath returns to.
   */
  class BezierPath {
    var elements: seq<Element>
    var pieces: seq<Piece>
    var current: Option<Point>
    var subpathStart: Point

    constructor ()
      ensures elements == [] && pieces == [] && current == None
    {
      elements, pieces, current := [], [], None;
      subpathStart := Point(0.0, 0.0);
    }

    /** moveToPoint: begins a new subpath at p; draws nothing. */
    method MoveToPoint(p: Point)
      modifies this
      ensures elements == old(elements) + [Move(p)] && pieces == old(pieces)
      ensures current == Some(p) && subpathStart == p
    {
      elements := elements + [Move(p)];
      current, subpathStart := Some(p), p;
    }

    /** addLineToPoint: a straight line from the current point, which UIKit requires to exist. */
    method AddLineToPoint(p: Point)
      requires current.Some?
      modifies this
      ensures elements == old(elements) + [AddLine(p)]
      ensures pieces == old(pieces) + [Line(old(current).value, p)]
      ensures current == Some(p) && subpathStart == old(subpathStart)
    {
      elements := elements + [AddLine(p)];
      pieces := pieces + [Line(current.value, p)];
      current := Some(p);
    }

    /**
      addArcWithCenter: without a current point the arc begins a subpath at its
      start; when the current point is elsewhere, UIKit first appends a line from
      it to the arc's start. The arc's end becomes the current point.
     */
    method AddArcWithCenter(center: Point, radius: real, startQ: int, endQ: int, clockwise: bool)
      modifies this
      ensures var from := OnCircle(center, radius, startQ);
        var arc := Arc(center, radius, startQ, endQ, clockwise);
        var call := AddArc(center, radius, startQ, endQ, clockwise);
        && (old(current) == None ==>
              && elements == old(elements) + [Move(from), call]
              && pieces == old(pieces) + [arc]
              && subpathStart == from)
        && (old(current) == Some(from) ==>
              && elements == old(elements) + [call]
              && pieces == old(pieces) + [arc]
              && subpathStart == old(subpathStart))
        && (old(current).Some? && old(current) != Some(from) ==>
              && elements == old(elements) + [AddLine(from), call]
              && pieces == old(pieces) + [Line(old(current).value, from), arc]
              && subpathStart == old(subpathStart))
      ensures current == Some(OnCircle(center, radius, endQ))
    {
      var from := OnCircle(center, radius, startQ);
      var arc := Arc(center, radius, startQ, endQ, clockwise);
      var call := AddArc(center, radius, startQ, endQ, clockwise);
      match current {
        case None =>
          elements := elements + [Move(from), call];
          pieces := pieces + [arc];
          subpathStart := from;
        case Some(p) =>
          if p == from {
            elements := elements + [call];
            pieces := pieces + [arc];
          } else {
            elements := elements + [AddLine(from), call];
            pieces := pieces + [Line(p, from), arc];
          }
      }
      current := Some(End(arc));
    }

    /**
      closePath: a straight line from the current point back to the start of
      the subpath, which becomes the current point. Without a current point
      there is nothing to close.
     */
    method ClosePath()
      modifies this
      ensures old(current) == None ==>
        elements == old(elements) && pieces == old(pieces) && current == None
      ensures old(current).Some? ==>
        && elements == old(elements) + [Close]
        && pieces == old(pieces) + [Line(old(current).value, old(subpathStart))]
        && current == Some(old(subpathStart))
      ensures subpathStart == old(subpathStart)
    {
      if current.Some? {
        elements := elements + [Close];
        pieces := pieces + [Line(current.value, subpathStart)];
        current := Some(subpathStart);
      }
    }
  }

  /** Where drawRect starts the outline: left of the top-left centre A, at A's height. */
  function OutlineStart(rc: Rect, r: real): Point
  {
    var k := CornerCentres(rc, r);
    Point(k.a.x - r, k.a.y)
  }

  /** The calls drawRect makes on the path, in order (angles pi, 3pi/2, 2pi, 0, pi/2 are 2, 3, 4, 0, 1). */
  function OutlineCommands(rc: Rect, r: real): seq<Element>
  {
    var k := CornerCentres(rc, r);
    [ Move(OutlineStart(rc, r)),
      AddArc(k.a, r, 2, 3, true),
      AddLine(Point(k.b.x, k.b.y - r)),
      AddArc(k.b, r, 3, 4, true),
      AddLine(Point(k.c.x + r, k.c.y)),
      AddArc(k.c, r, 0, 1, true),
      AddLine(Point(k.d.x, k.d.y + r)),
      AddArc(k.d, r, 1, 2, true),
      Close ]
  }

  /**
    The pieces the outline draws, clockwise from the top-left corner: arc A,
    top side, arc B, right side, arc C, bottom side, arc D, and the left side
    that closePath draws.
   */
  function OutlinePieces(rc: Rect, r: real): seq<Piece>
  {
    var k := CornerCentres(rc, r);
    [ Arc(k.a, r, 2, 3, true),
      Line(OnCircle(k.a, r, 3), Point(k.b.x, k.b.y - r)),
      Arc(k.b, r, 3, 4, true),
      Line(OnCircle(k.b, r, 4), Point(k.c.x + r, k.c.y)),
      Arc(k.c, r, 0, 1, true),
      Line(OnCircle(k.c, r, 1), Point(k.d.x, k.d.y + r)),
      Arc(k.d, r, 1, 2, true),
      Line(OnCircle(k.d, r, 2), OutlineStart(rc, r)) ]
  }

  /**
    Builds the outline as drawRect does. Every arc begins exactly at the
    current point, so the path never inserts a connecting line of its own: it
    holds exactly the nine calls, and draws exactly the outline's pieces.
   */
  method BuildOutline(rc: Rect, r: real) returns (path: BezierPath)
    ensures fresh(path)
    ensures path.elements == OutlineCommands(rc, r)
    ensures path.pieces == OutlinePieces(rc, r)
    ensures path.current == Some(OutlineStart(rc, r))
  {
    var k := CornerCentres(rc, r);
    ghost var cmds, ps := OutlineCommands(rc, r), OutlinePieces(rc, r);
    path := new BezierPath();
    path.MoveToPoint(Point(k.a.x - r, k.a.y));
    assert OnCircle(k.a, r, 2) == Point(k.a.x - r, k.a.y);
    path.AddArcWithCenter(k.a, r, 2, 3, true);
    assert path.elements == cmds[..2] && path.pieces == ps[..1];
    path.AddLineToPoint(Point(k.b.x, k.b.y - r));
    assert OnCircle(k.b, r, 3) == Point(k.b.x, k.b.y - r);
    path.AddArcWithCenter(k.b, r, 3, 4, true);
    assert path.elements == cmds[..4] && path.pieces == ps[..3];
    path.AddLineToPoint(Point(k.c.x + r, k.c.y));
    assert OnCircle(k.c, r, 0) == Point(k.c.x + r, k.c.y);
    path.AddArcWithCenter(k.c, r, 0, 1, true);
    assert path.elements == cmds[..6] && path.pieces == ps[..5];
    path.AddLineToPoint(Point(k.d.x, k.d.y + r));
    assert OnCircle(k.d, r, 1) == Point(k.d.x, k.d.y + r);
    path.AddArcWithCenter(k.d, r, 1, 2, true);
    assert path.elements == cmds[..8] && path.pieces == ps[..7];
    path.ClosePath();
    assert path.elements == cmds && path.pieces == ps;
  }

  /** The outline is one closed loop: chained piece to piece, and back to where it started. */
  lemma OutlineIsClosedLoop(rc: Rect, r: real)
    ensures var ps := OutlinePieces(rc, r);
      && |ps| == 8
      && Chained(ps)
      && Start(ps[0]) == OutlineStart(rc, r)
      && End(ps[7]) == OutlineStart(rc, r)
  {
  }

  /**
    A clockwise quarter arc, a straight side of length len, and the next
    clockwise quarter arc, joined smoothly: the side leaves the arc where it
    ends, in the direction the arc is travelling there (a quarter turn past
    the arc's end angle), so it never turns back over the arc, and the next
    arc begins at the side's end, at the following quadrant.
   */
  ghost predicate SmoothJoint(arc: Piece, side: Piece, next: Piece, len: real)
  {
    && arc.Arc? && arc.clockwise && arc.radius >= 0.0 && Sweep(arc.startQ, arc.endQ, true) == 1
    && next.Arc? && next.clockwise && next.startQ % 4 == arc.endQ % 4
    && side.Line? && side.from == End(arc) && side.to == Start(next)
    && len >= 0.0
    && side.to == OnCircle(side.from, len, arc.endQ + 1)
  }

  /**
    With a radius that is not negative and at most half of each side, the four sides have lengths
    width - 2r, height - 2r, width - 2r, height - 2r, none negative, and each
    joins its two corner arcs smoothly.
   */
  lemma OutlineIsSmooth(rc: Rect, r: real)
    requires 0.0 <= r && 2.0 * r <= Width(rc) && 2.0 * r <= Height(rc)
    ensures var ps := OutlinePieces(rc, r);
      && SmoothJoint(ps[0], ps[1], ps[2], Width(rc) - 2.0 * r)
      && SmoothJoint(ps[2], ps[3], ps[4], Height(rc) - 2.0 * r)
      && SmoothJoint(ps[4], ps[5], ps[6], Width(rc) - 2.0 * r)
      && SmoothJoint(ps[6], ps[7], ps[0], Height(rc) - 2.0 * r)
  {
  }

  /**
    Summing the pieces gives the closed-form path length used for the dash
    pattern: no part of the perimeter is counted twice or left out.
   */
  lemma OutlineLength(rc: Rect, r: real)
    requires 0.0 <= r && 2.0 * r <= Width(rc) && 2.0 * r <= Height(rc)
    ensures TotalLength(OutlinePieces(rc, r)) == PathLength(rc, r)
  {
    var ps := OutlinePieces(rc, r);
    var quarter := Pi * r / 2.0;
    var w, h := Width(rc) - 2.0 * r, Height(rc) - 2.0 * r;
    assert Length(ps[0]) == quarter && Length(ps[2]) == quarter;
    assert Length(ps[4]) == quarter && Length(ps[6]) == quarter;
    assert Length(ps[1]) == w && Length(ps[3]) == h;
    assert Length(ps[5]) == w && Length(ps[7]) == h;
    assert TotalLength(ps[8..]) == 0.0;
    assert TotalLength(ps[7..]) == h;
    assert TotalLength(ps[6..]) == quarter + h;
    assert TotalLength(ps[5..]) == w + quarter + h;
    assert TotalLength(ps[4..]) == quarter + w + quarter + h;
    assert TotalLength(ps[3..]) == h + quarter + w + quarter + h;
    assert TotalLength(ps[2..]) == quarter + h + quarter + w + quarter + h;
    assert TotalLength(ps[1..]) == w + quarter + h + quarter + w + quarter + h;
    assert TotalLength(ps) == quarter + w + quarter + h + quarter + w + quarter + h;
  }
}
