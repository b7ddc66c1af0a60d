# MCDashedRoundedRectView, modelled in Dafny

MCDashedRoundedRectView is a UIKit view. It draws a rounded rectangle with a
dashed outline. The dash pattern is stretched slightly so that a whole number
of copies fits the outline, so no short dash or gap is left where the outline
closes. This project models:

- the view's configuration: corner radius, stroke width and colour, fill flag
  and colour, phase, the dash pattern and the four dash/gap sizes it is rebuilt
  from;
- the geometry drawRect computes:
  - the inset from the bounds;
  - the rectangle the outline is drawn on;
  - the corner radius clamped against overlap;
  - the four corner centres;
  - the closed-form outline length;
- the outline path, built call by call on a model of UIBezierPath, with
  UIBezierPath's own behaviour for arcs that do not start at the current point
  and for closePath;
- the fitting of the dash pattern to the outline length.

Modules, one file each:

- `Wrappers` (`wrappers.dfy`): the `Option` type.
- `Geometry` (`geometry.dfy`): CGRect and its standardizing accessors, the
  inset, the drawing rectangle, the radius clamp, the corner centres and the
  path length.
- `Path` (`path.dfy`): the `BezierPath` class (a UIBezierPath under
  construction), the outline builder, and lemmas about the outline. The lemmas
  show that:
  - the outline is one closed chain of pieces;
  - for a radius that is not negative, it turns smoothly at every corner and
    its sides never run backwards;
  - its pieces measure exactly the closed-form length.
- `DashFit` (`dash_fit.dfy`): Swift's `round`, the pattern sum (a left fold),
  the element-wise stretch, and the fitted pattern with the properties it
  promises.
- `View` (`view.dfy`): the `DashedRoundedRectView` class with its settings
  and `Draw`, plus the end-to-end lemma connecting the fitted pattern to the
  drawn outline.

Angles are whole quarter turns with UIKit's y axis pointing down: 0 is
right, 1 is down, 2 is left, 3 is up and 4 is a full turn.

drawRect does not clamp the drawing rectangle's size. When the bounds are
narrower or shorter than twice the inset, `CGRectMake` gets a negative width or
height, and CGRect's `minX`, `maxX`, `width` and `height` read the rectangle
standardized. `Geometry.Rect` keeps the size as stored. `Geometry.MinX`,
`MaxX`, `MinY` and `MaxY` are the accessors that
Classes/MCDashedRoundedRectView.swift:100-103 reads: each is the smaller or
larger of the two stored edges. `Width` and `Height` standardize the size.

## Model

| member | source | states |
|---|---|---|
| Geometry.Width | Classes/MCDashedRoundedRectView.swift:83 | The width read through CGRect is never negative and is the distance from minX to maxX. It is the stored width when that is not negative. |
| Geometry.Height | Classes/MCDashedRoundedRectView.swift:83 | The same as Width, for the vertical direction. |
| Geometry.Ceil | Classes/MCDashedRoundedRectView.swift:74 | ceil returns the least integer that is not below x. |
| Geometry.Inset | Classes/MCDashedRoundedRectView.swift:74 | offsetFromEdge is a whole number. It is at least 1 + strokeWidth/2 and below 2 + strokeWidth/2. |
| Geometry.DrawingRect | Classes/MCDashedRoundedRectView.swift:75-80 | The rounded rect is the bounds shrunk by offsetFromEdge on each of the four sides. |
| Geometry.StrokeStaysInside | Classes/MCDashedRoundedRectView.swift:73-80 | When the bounds leave room for it, a stroke centred on the drawing rectangle stays at least one point inside the bounds on every side, which is what avoids clipping. The rectangle's width and height are the bounds less twice the inset. |
| Geometry.SmallerDimension | Classes/MCDashedRoundedRectView.swift:83 | The smaller dimension is one of the width and the height, and is at most each of them. |
| Geometry.CornerRadius | Classes/MCDashedRoundedRectView.swift:82-84 | The radius is the requested one when twice it is below the smaller dimension, and half the smaller dimension otherwise. So it is the minimum of the two, two radii never exceed the width or the height (corners do not overlap), and it is negative only when the request is. |
| Geometry.CornerCentres | Classes/MCDashedRoundedRectView.swift:95-103 | Each of A, B, C and D lies one radius in from its own corner. A and B share a y, C and D share a y, A and D share an x, and B and C share an x. Their distances apart are the width and the height less two radii. |
| Geometry.CentresInOrder | Classes/MCDashedRoundedRectView.swift:83-103 | With the clamped radius, A is left of or on B and above or on D. |
| Geometry.PathLength | Classes/MCDashedRoundedRectView.swift:159 | pathLength is one full circle of radius r plus two sides of width - 2r and two of height - 2r. Path.OutlineLength shows that this is the length actually drawn. |
| Geometry.PathLengthNonNegative | Classes/MCDashedRoundedRectView.swift:159 | With a non-negative requested radius, the closed-form path length is never negative. |
| Path.OnCircle | Classes/MCDashedRoundedRectView.swift:107-145 | The points the outline uses, such as pointA.x - radius, lie at distance r from their centre. |
| Path.Sweep | Classes/MCDashedRoundedRectView.swift:109-145 | An arc turns by fewer than four quarter turns. Turning that many from its start angle in its direction reaches its end angle. |
| Path.Length | Classes/MCDashedRoundedRectView.swift:159 | Every piece of the path has a length that is not negative. |
| Path.BezierPath.constructor | Classes/MCDashedRoundedRectView.swift:105 | A new UIBezierPath is empty and has no current point. |
| Path.BezierPath.MoveToPoint | Classes/MCDashedRoundedRectView.swift:107 | moveToPoint starts a subpath at p and draws nothing. |
| Path.BezierPath.AddLineToPoint | Classes/MCDashedRoundedRectView.swift:117 | addLineToPoint appends one line from the current point to p, and p becomes the current point. |
| Path.BezierPath.AddArcWithCenter | Classes/MCDashedRoundedRectView.swift:109-115 | addArcWithCenter behaves in one of three ways. Without a current point it begins a subpath at the arc's start. From the arc's start it appends only the arc. From anywhere else it first appends a connecting line. The arc's end becomes the current point. |
| Path.BezierPath.ClosePath | Classes/MCDashedRoundedRectView.swift:146 | closePath appends a line from the current point back to the subpath's start, which becomes the current point. With no current point it does nothing. |
| Path.BuildOutline | Classes/MCDashedRoundedRectView.swift:105-146 | The calls drawRect makes produce exactly the nine path elements written in the code. No connecting line is inserted, because every arc starts where the previous element ended. The path is the eight pieces arc, side, arc, side, arc, side, arc, closing side. |
| Path.OutlineIsClosedLoop | Classes/MCDashedRoundedRectView.swift:105-146 | The eight pieces form one chain. Each starts where the previous one ends, and the last ends where the first begins. |
| Path.OutlineIsSmooth | Classes/MCDashedRoundedRectView.swift:107-145 | For a radius that is not negative, every corner is a clockwise quarter arc. The side after it leaves in the direction the arc ends in and has a length that is not negative, so the outline never doubles back. The sides have lengths width - 2r and height - 2r, alternately. |
| Path.OutlineLength | Classes/MCDashedRoundedRectView.swift:159 | The closed-form pathLength equals the summed length of the pieces the path draws. |
| DashFit.Round | Classes/MCDashedRoundedRectView.swift:162 | round returns the nearest integer, with halves rounded away from zero. |
| DashFit.RoundIsOdd | Classes/MCDashedRoundedRectView.swift:162 | Rounding is symmetric about zero. |
| DashFit.Sum | Classes/MCDashedRoundedRectView.swift:160 | patternLength is the left fold of reduce(0): the sum of everything before the last element, plus the last element. |
| DashFit.SumFromFront | Classes/MCDashedRoundedRectView.swift:160 | The fold's order does not matter: the sum is also the first element plus the sum of the rest. |
| DashFit.Scale | Classes/MCDashedRoundedRectView.swift:164 | The map keeps the pattern's length, and each element is the original element times the ratio. |
| DashFit.SumScale | Classes/MCDashedRoundedRectView.swift:160-164 | Stretching every element by a ratio stretches the pattern's sum by the same ratio. |
| DashFit.SumNonNegative | Classes/MCDashedRoundedRectView.swift:160 | A pattern of non-negative lengths has a non-negative sum. The sum is zero only when every element is zero. |
| DashFit.Repetitions | Classes/MCDashedRoundedRectView.swift:162 | numberOfPatterns is within one half of pathLength / patternLength. |
| DashFit.StretchRatio | Classes/MCDashedRoundedRectView.swift:163 | n copies of a pattern of patternLength, stretched by stretchRatio, measure pathLength. |
| DashFit.FitDashPattern | Classes/MCDashedRoundedRectView.swift:159-166 | The stroke is solid exactly when the pattern sums to zero. The source divides by zero exactly when the sum is not zero and the count rounds to zero. Otherwise the pattern is stretched: it keeps its length, its count is numberOfPatterns, and every element is multiplied by the one stretchRatio. |
| DashFit.FittedPatternTiles | Classes/MCDashedRoundedRectView.swift:159-165 | When the pattern is stretched, numberOfPatterns copies of it measure exactly the path length. |
| DashFit.StretchedTiles | Classes/MCDashedRoundedRectView.swift:162-164 | For any non-zero count n, n copies of the pattern stretched by the ratio for n measure pathLength. |
| DashFit.RepetitionsPositive | Classes/MCDashedRoundedRectView.swift:162 | A positive pattern on a path at least half a pattern long gets at least one copy. |
| DashFit.StretchIsSlight | Classes/MCDashedRoundedRectView.swift:162-163 | With n >= 1 copies, the stretch ratio lies within 1/(2n) of 1, so the pattern is adjusted only slightly. |
| View.DashedRoundedRectView.constructor | Classes/MCDashedRoundedRectView.swift:14-44 | init(frame:) starts from the declared defaults: radius 10, stroke width 1, no colours, not filled, sizes 3, 3, 0, 0 and phase 0. The dash pattern is then built from the four sizes. |
| View.DashedRoundedRectView.UpdateDashPatternFromInspectables | Classes/MCDashedRoundedRectView.swift:57-62 | The dash pattern becomes [firstDashSize, firstGapSize, secondDashSize, secondGapSize], and nothing else changes. |
| View.DashedRoundedRectView.SetDashPattern | Classes/MCDashedRoundedRectView.swift:22-34 | Setting dashPattern directly changes only the pattern. |
| View.DashedRoundedRectView.SetFirstDashSize | Classes/MCDashedRoundedRectView.swift:36 | Setting firstDashSize rebuilds the pattern from the four sizes. |
| View.DashedRoundedRectView.SetFirstGapSize | Classes/MCDashedRoundedRectView.swift:37 | Setting firstGapSize rebuilds the pattern from the four sizes. |
| View.DashedRoundedRectView.SetSecondDashSize | Classes/MCDashedRoundedRectView.swift:38 | Setting secondDashSize rebuilds the pattern from the four sizes. |
| View.DashedRoundedRectView.SetSecondGapSize | Classes/MCDashedRoundedRectView.swift:39 | Setting secondGapSize rebuilds the pattern from the four sizes. |
| View.DashedRoundedRectView.SetCornerRadius | Classes/MCDashedRoundedRectView.swift:14 | Setting cornerRadius changes only that field. Like the other settings below, its frame leaves dashPattern alone, so a pattern set directly survives every setting except the four sizes. |
| View.DashedRoundedRectView.SetStrokeWidth | Classes/MCDashedRoundedRectView.swift:16 | Setting strokeWidth changes only that field. |
| View.DashedRoundedRectView.SetStrokeColor | Classes/MCDashedRoundedRectView.swift:17 | Setting strokeColor changes only that field. |
| View.DashedRoundedRectView.SetIsFilled | Classes/MCDashedRoundedRectView.swift:19 | Setting isFilled changes only that field. |
| View.DashedRoundedRectView.SetFillColor | Classes/MCDashedRoundedRectView.swift:20 | Setting fillColor changes only that field. |
| View.DashedRoundedRectView.SetPhase | Classes/MCDashedRoundedRectView.swift:68 | Setting phase changes only that field. |
| View.DashedRoundedRectView.Draw | Classes/MCDashedRoundedRectView.swift:70-171 | drawRect draws the outline on the inset rectangle with the clamped radius. It fills only when filling is on and a fill colour is set. It strokes only when a stroke colour is set, using the stroke width, the phase and the pattern fitted to the closed-form length. The stroke is solid exactly when the pattern sums to zero. The phase then has no effect, because the source passes it only through setLineDash (:161-165). |
| View.FitsOutlineAsDrawn | Classes/MCDashedRoundedRectView.swift:155-165 | Fitting the pattern to the closed-form length gives the same result as fitting it to the measured length of the outline drawRect draws. |
| View.DrawnPatternTilesOutline | Classes/MCDashedRoundedRectView.swift:73-165 | For any bounds, stroke width and non-negative cornerRadius, when drawRect stretches the pattern, numberOfPatterns copies of it cover the drawn outline exactly. The last gap ends where the first dash begins. |

## Left out

- Rendering is not modelled. `Draw` returns what would be filled and stroked: the path, the fill colour, and the stroke's colour, width, dash and phase. Pixels, `setFill`/`setStroke`, `super.drawRect` and the graphics context are not modelled.
- `setNeedsDisplay`, which every property observer calls, is not modelled. It only requests a redraw.
- Colours are opaque values. Only whether one is set is observed.
- The bounds of the view are a parameter of `Draw`. Layout belongs to UIKit.
- `init(coder:)` and `prepareForInterfaceBuilder` are not modelled separately. Both call `UpdateDashPatternFromInspectables`, as `init(frame:)` does. `init(coder:)` also starts from the declared defaults. Interface Builder's archiving and designable rendering are not modelled.
- `dashPattern` is an implicitly unwrapped optional in the source. The model stores a sequence, so assigning nil is not modelled; in the source that would trap at the next stroked draw.
- CGFloat is modelled as exact real arithmetic. Floating-point rounding and the values of `ceil`, `round` and the division on infinities and NaN are not modelled.
- `Int(round(...))` is modelled with an unbounded integer, so its trap on values outside Int's range is not modelled.
- `M_PI` is an uninterpreted positive constant. No proof depends on its value.
- DashFit.FitDashPattern: when the count rounds to zero the source divides by zero and hands UIKit a pattern of infinities or NaNs. The model reports this outcome as `DivideByZero` instead of computing those values.
- Path.Length: a line's length is |dx| + |dy|. This equals the Euclidean length only for the axis-parallel sides the outline has.
- Path.Sweep: arcs are whole quarter turns, and a full-circle arc, whose end angle equals its start angle, is not modelled. drawRect uses only quarter arcs.
- Path.OnCircle: angles are whole quarter turns; arbitrary angles are not modelled.
- Path.OutlineLength: requires a non-negative radius. With a negative cornerRadius the source draws arcs with a negative radius, and the closed-form length then differs from the drawn one.
- Path.OutlineIsSmooth: requires a radius that is not negative. A negative cornerRadius passes the clamp unchanged, and each arc then ends on the far side of its centre, so the sides do not leave the arcs in the direction the arcs travel.
- View.FitsOutlineAsDrawn: requires a non-negative radius, for the same reason as Path.OutlineLength.
