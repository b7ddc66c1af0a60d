/**
  MCDashedRoundedRectView: the view's configuration (corner radius, stroke,
  fill, dash pattern and its four size inputs, phase) and what drawRect hands
  to the renderer. Redraw requests (setNeedsDisplay) and the colours
  themselves are the framework's; a colour is an opaque value here.
 */
module View {
  import opened Geometry
  import opened Wrappers
  import opened DashFit
  import opened Path

  /** A UIColor, of which nothing is inspected. */
  type Color(==)

  /**
    How the outline is stroked: colour, line width, and the dash with its
    phase. The phase reaches the renderer only with the dash (setLineDash); a
    Solid stroke has no dash and its phase has no effect.
   */
  datatype Stroke = Stroke(color: Color, lineWidth: real, dash: Fit, phase: real)

  /** What one drawRect call produces: the path, and whether and how it is filled and stroked. */
  datatype Drawing = Drawing(
    commands: seq<Element>,
    outline: seq<Piece>,
    fill: Option<Color>,
    stroke: Option<Stroke>)

  class DashedRoundedRectView {
    var cornerRadius: real
    var strokeWidth: real
    var strokeColor: Option<Color>
    var isFilled: bool
    var fillColor: Option<Color>
    /** The dash/gap lengths; rebuilt from the four sizes whenever one of them is set. */
    var dashPattern: seq<real>
    var firstDashSize: real
    var firstGapSize: real
    var secondDashSize: real
    var secondGapSize: real
    var phase: real

    /** The pattern the four size inputs describe: dash, gap, dash, gap. */
    function Inspectables(): seq<real>
      reads this
    {
      [firstDashSize, firstGapSize, secondDashSize, secondGapSize]
    }

    /** init(frame:): the declared defaults, then the pattern is built from the four sizes. */
    constructor ()
      ensures cornerRadius == 10.0 && strokeWidth == 1.0 && strokeColor == None
      ensures !isFilled && fillColor == None && phase == 0.0
      ensures firstDashSize == 3.0 && firstGapSize == 3.0
      ensures secondDashSize == 0.0 && secondGapSize == 0.0
      ensures dashPattern == [3.0, 3.0, 0.0, 0.0] == Inspectables()
    {
      cornerRadius, strokeWidth, strokeColor := 10.0, 1.0, None;
      isFilled, fillColor := false, None;
      firstDashSize, firstGapSize, secondDashSize, secondGapSize := 3.0, 3.0, 0.0, 0.0;
      phase := 0.0;
      dashPattern := [];
      new;
      UpdateDashPatternFromInspectables();
    }

    /** Replaces the pattern with the one the four size inputs describe. */
    method UpdateDashPatternFromInspectables()
      modifies this`dashPattern
      ensures dashPattern == Inspectables()
    {
      dashPattern := [firstDashSize, firstGapSize, secondDashSize, secondGapSize];
    }

    /** Sets the pattern directly; it stays until one of the four sizes is set. */
    method SetDashPattern(pattern: seq<real>)
      modifies this`dashPattern
      ensures dashPattern == pattern
    {
      dashPattern := pattern;
    }

    method SetFirstDashSize(v: real)
      modifies this`firstDashSize, this`dashPattern
      ensures firstDashSize == v
      ensures dashPattern == Inspectables() == [v, firstGapSize, secondDashSize, secondGapSize]
    {
      firstDashSize := v;
      UpdateDashPatternFromInspectables();
    }

    method SetFirstGapSize(v: real)
      modifies this`firstGapSize, this`dashPattern
      ensures firstGapSize == v
      ensures dashPattern == Inspectables() == [firstDashSize, v, secondDashSize, secondGapSize]
    {
      firstGapSize := v;
      UpdateDashPatternFromInspectables();
    }

    method SetSecondDashSize(v: real)
      modifies this`secondDashSize, this`dashPattern
      ensures secondDashSize == v
      ensures dashPattern == Inspectables() == [firstDashSize, firstGapSize, v, secondGapSize]
    {
      secondDashSize := v;
      UpdateDashPatternFromInspectables();
    }

    method SetSecondGapSize(v: real)
      modifies this`secondGapSize, this`dashPattern
      ensures secondGapSize == v
      ensures dashPattern == Inspectables() == [firstDashSize, firstGapSize, secondDashSize, v]
    {
      secondGapSize := v;
      UpdateDashPatternFromInspectables();
    }

    // The other settings only request a redraw; each changes its own field and
    // nothing else, so a pattern set directly survives them.

    method SetCornerRadius(v: real)
      modifies this`cornerRadius
      ensures cornerRadius == v
    {
      cornerRadius := v;
    }

    method SetStrokeWidth(v: real)
      modifies this`strokeWidth
      ensures strokeWidth == v
    {
      strokeWidth := v;
    }

    method SetStrokeColor(c: Option<Color>)
      modifies this`strokeColor
      ensures strokeColor == c
    {
      strokeColor := c;
    }

    method SetIsFilled(b: bool)
      modifies this`isFilled
      ensures isFilled == b
    {
      isFilled := b;
    }

    method SetFillColor(c: Option<Color>)
      modifies this`fillColor
      ensures fillColor == c
    {
      fillColor := c;
    }

    method SetPhase(v: real)
      modifies this`phase
      ensures phase == v
    {
      phase := v;
    }

    /**
      drawRect for a view whose bounds measure boundsWidth by boundsHeight:
      the outline is built on the drawing rectangle with the clamped radius;
      it is filled only when filling is on and a fill colour is set, and
      stroked only when a stroke colour is set. The stroke is dashed with the
      pattern fitted to the closed-form path length, and solid when the
      pattern sums to zero (the phase is then recorded but has no effect).
     */
    method Draw(boundsWidth: real, boundsHeight: real) returns (d: Drawing)
      ensures d.commands == OutlineCommands(DrawingRect(boundsWidth, boundsHeight, strokeWidth),
        CornerRadius(cornerRadius, DrawingRect(boundsWidth, boundsHeight, strokeWidth)))
      ensures d.outline == OutlinePieces(DrawingRect(boundsWidth, boundsHeight, strokeWidth),
        CornerRadius(cornerRadius, DrawingRect(boundsWidth, boundsHeight, strokeWidth)))
      ensures d.fill.Some? <==> isFilled && fillColor.Some?
      ensures d.fill.Some? ==> d.fill == fillColor
      ensures d.stroke.Some? <==> strokeColor.Some?
      ensures d.stroke.Some? ==>
        && d.stroke.value.color == strokeColor.value
        && d.stroke.value.lineWidth == strokeWidth
        && d.stroke.value.phase == phase
        && d.stroke.value.dash == FitDashPattern(dashPattern,
             PathLength(DrawingRect(boundsWidth, boundsHeight, strokeWidth),
               CornerRadius(cornerRadius, DrawingRect(boundsWidth, boundsHeight, strokeWidth))))
      ensures (d.stroke.Some? && d.stroke.value.dash.Solid?) <==> (strokeColor.Some? && Sum(dashPattern) == 0.0)
    {
      var rc := DrawingRect(boundsWidth, boundsHeight, strokeWidth);
      var radius := CornerRadius(cornerRadius, rc);
      var path := BuildOutline(rc, radius);
      var fill := None;
      if isFilled && fillColor.Some? {
        fill := fillColor;
      }
      var stroke := None;
      if strokeColor.Some? {
        var pathLength := PathLength(rc, radius);
        stroke := Some(Stroke(strokeColor.value, strokeWidth, FitDashPattern(dashPattern, pathLength), phase));
      }
      d := Drawing(path.elements, path.pieces, fill, stroke);
    }
  }

  /**
    End to end: drawRect fits the pattern to the closed-form length, and that
    is the same fit as to the length of the outline it draws, piece by piece.
    With FittedPatternTiles, a stretched pattern therefore covers the drawn
    outline exactly and the last gap ends where the first dash begins. The
    radius bounds are those CornerRadius guarantees for a corner radius that
    is not negative.
   */
  lemma FitsOutlineAsDrawn(pattern: seq<real>, rc: Rect, r: real)
    requires 0.0 <= r && 2.0 * r <= Width(rc) && 2.0 * r <= Height(rc)
    ensures FitDashPattern(pattern, PathLength(rc, r)) == FitDashPattern(pattern, TotalLength(OutlinePieces(rc, r)))
  {
    OutlineLength(rc, r);
  }

  /**
    For every corner radius that is not negative: when drawRect stretches the
    pattern, its copies cover the outline it draws exactly, so the last gap
    ends where the first dash begins.
   */
  lemma DrawnPatternTilesOutline(pattern: seq<real>, boundsWidth: real, boundsHeight: real,
                                 strokeWidth: real, cornerRadius: real)
    requires cornerRadius >= 0.0
    ensures var rc := DrawingRect(boundsWidth, boundsHeight, strokeWidth);
      var r := CornerRadius(cornerRadius, rc);
      var f := FitDashPattern(pattern, PathLength(rc, r));
      f.Stretched? ==> Sum(f.pattern) * (f.repetitions as real) == TotalLength(OutlinePieces(rc, r))
  {
    var rc := DrawingRect(boundsWidth, boundsHeight, strokeWidth);
    var r := CornerRadius(cornerRadius, rc);
    FitsOutlineAsDrawn(pattern, rc, r);
    if FitDashPattern(pattern, TotalLength(OutlinePieces(rc, r))).Stretched? {
      FittedPatternTiles(pattern, TotalLength(OutlinePieces(rc, r)));
    }
  }
}
