# Boxed bezier timing-curve editor: coordinate mapping and control-point state

This project models the logic of `BoxedBezierPath`, a SwiftUI view for editing
a cubic-bezier timing curve. The curve lives in a unit square: the origin is at
the bottom left, y grows upwards, and the curve's ends are fixed at (0,0) and
(1,1). The user drags two handles, the start and end control points. The view
draws them around a square centred in its frame. The curve runs between the
square's bottom-left and top-right corners, and the handles may leave the
square. The square's side is 0.35 of the frame's shorter dimension. The
last two of the four `Animation.timingCurve` parameters come from the end
control point, the first two from the start control point.

The model has three modules.

- `Geometry` (`geometry.dfy`) holds the square's side, centre and corners. It
  also holds `ActualCP`, the map from unit space to pixel space, where pixel
  space has its origin at the top left and y grows downwards. `UnitCP` is the
  inverse map. `CGFloat` is modelled as `real`, so the two maps are exact
  inverses.
- `CubicBezier` (`bezier.dfy`) defines which curve a cubic segment with four
  points means, using de Casteljau's construction. It proves that `ActualCP`
  carries every point of a unit-space curve onto the pixel-space curve drawn
  through the mapped points.
- `Curve` (`curve_model.dfy`) holds the class `CurveModel`. Its two fields are
  the view's two control-point bindings. The drag handlers and the reset
  button overwrite those fields in place. Reading functions give the four
  points handed to `BezierPath` and `ControlLinesPath`, and the four timing
  parameters. `BezierPath` and `ControlLinesPath`, the functions that give
  the path elements each shape adds, are in the same module.

The main result is `Curve.DrawnCurveIsTimingCurve`. It says that the drawn
curve is, point for point, the timing curve the dot is animated with, carried
into the drawn square.

`BoxedBezierPath.swift`'s defaults are start (0,1) and end (1,0), and this
model uses them.

## Model

| member | source | states |
|---|---|---|
| `Geometry.RectangleSize` | TimingCurves/BoxedBezierPath.swift:98-100 | The side is 0.35 times the smaller of width and height. It is at most 0.35 times each dimension and equals 0.35 times one of them. It is strictly positive when both dimensions are. |
| `Geometry.Min` | TimingCurves/BoxedBezierPath.swift:99 | `min` returns a value no larger than either argument, and it is one of the two arguments. |
| `Geometry.Center` | TimingCurves/BoxedBezierPath.swift:102-106 | It has no contract of its own. `SquareShape` shows it is the midpoint of bottom-left and top-right, and `CornerMapping` shows it is the image of (0.5,0.5). |
| `Geometry.TopLeft` | TimingCurves/BoxedBezierPath.swift:108-114 | It has no contract of its own. `SquareShape` shows it has bottom-left's x and top-right's y, and `CornerMapping` shows it is the image of (0,1). |
| `Geometry.TopRight` | TimingCurves/BoxedBezierPath.swift:116-122 | It has no contract of its own. `SquareShape` shows it lies one side to the right of and one side above bottom-left, and `CornerMapping` shows it is the image of (1,1). |
| `Geometry.BottomLeft` | TimingCurves/BoxedBezierPath.swift:124-130 | It has no contract of its own. `CornerMapping` shows it is the image of (0,0) and that `UnitCP` sends it back to (0,0). |
| `Geometry.BottomRight` | TimingCurves/BoxedBezierPath.swift:132-138 | It has no contract of its own. `SquareShape` shows it has top-right's x and bottom-left's y, and `CornerMapping` shows it is the image of (1,0). |
| `Geometry.ActualCP` | TimingCurves/BoxedBezierPath.swift:140-146 | It has no contract of its own. Its inverse is `UnitCP` (`RoundTripUnit`, `ActualCPInjective`). `ActualCPIsAffine`, `Orientation` and `CornerMapping` say what it computes. |
| `Geometry.UnitCP` | TimingCurves/BoxedBezierPath.swift:148-154 | The unit point it returns is drawn exactly at the given pixel: `ActualCP(UnitCP(q)) == q`. It is defined whenever the side is non-zero. |
| `Geometry.RoundTripUnit` | TimingCurves/BoxedBezierPath.swift:140-154 | Going from unit space to pixel space and back gives back any unit point. |
| `Geometry.RoundTripPixel` | TimingCurves/BoxedBezierPath.swift:140-154 | A named corollary of `UnitCP`'s postcondition: going from pixel space to unit space and back gives back any pixel. |
| `Geometry.ActualCPInjective` | TimingCurves/BoxedBezierPath.swift:140-146 | Two unit points drawn at the same pixel are equal. |
| `Geometry.SquareShape` | TimingCurves/BoxedBezierPath.swift:102-138 | The corners are a square whose side is `RectangleSize`. The top-left and bottom-right corners are built from the bottom-left and top-right ones. The centre is the midpoint of bottom-left and top-right. For a frame with positive width and height, the bottom edge has the larger pixel y. |
| `Geometry.CornerMapping` | TimingCurves/BoxedBezierPath.swift:108-154 | Unit points (0,0), (1,1), (0,1) and (1,0) land on the bottom-left, top-right, top-left and bottom-right corners. (0.5,0.5) lands on the centre. `UnitCP` sends bottom-left to (0,0) and top-right to (1,1). |
| `Geometry.Orientation` | TimingCurves/BoxedBezierPath.swift:140-146 | For a frame with positive width and height, a larger unit y gives a strictly smaller pixel y, and the reverse also holds. A larger unit x gives a strictly larger pixel x, and the reverse also holds. |
| `Geometry.SquareCorrespondence` | TimingCurves/BoxedBezierPath.swift:148-154 | A pixel maps into the unit square exactly when it lies in the drawn square. So a drag outside the square gives a control point outside [0,1] x [0,1], and nothing clamps it. |
| `Geometry.FixedFrameExample` | TimingCurves/BoxedBezierPath.swift:98-130 | In the editor's 300 x 300 frame the side is 105 and the centre is (150,150). Bottom-left is (97.5, 202.5) and top-right is (202.5, 97.5). |
| `Geometry.FixedFrameOppositeCorners` | TimingCurves/BoxedBezierPath.swift:108-146 | In the 300 x 300 frame, bottom-right is (202.5, 202.5) and top-left is (97.5, 97.5). Unit points (1,0) and (0,1) are drawn at those pixels. |
| `CubicBezier.Endpoints` | TimingCurves/BoxedBezierPath.swift:218-227 | A cubic starts at its first point (t = 0) and ends at its last point (t = 1). |
| `CubicBezier.ActualCPIsAffine` | TimingCurves/BoxedBezierPath.swift:140-146 | `ActualCP` scales and shifts each axis on its own: slope side on x, slope minus the side on y. |
| `CubicBezier.ActualCPOfBezier` | TimingCurves/BoxedBezierPath.swift:140-146 | Mapping a cubic's four points with `ActualCP` maps every point of the curve: the pixel curve is the image of the unit curve. |
| `Curve.BezierPath` | TimingCurves/BoxedBezierPath.swift:218-227 | It has no contract of its own. `DrawnCurveIsTimingCurve` shows that the cubic it draws is the image of the timing curve. |
| `Curve.ControlLinesPath` | TimingCurves/BoxedBezierPath.swift:268-275 | It has no contract of its own. `GuidesJoinCornersToHandles` shows that its lines are the drawn curve's end tangents. |
| `Curve.GetAnimatableData` | TimingCurves/BoxedBezierPath.swift:229-235 | It has no contract of its own. `AnimatableDataRoundTrip` shows that it and `SetAnimatableData` are mutually inverse. |
| `Curve.SetAnimatableData` | TimingCurves/BoxedBezierPath.swift:236-245 | The animatable-data setter changes only the two control points. The two corners are kept. |
| `Curve.AnimatableDataRoundTrip` | TimingCurves/BoxedBezierPath.swift:229-246 | Getting and then setting the animatable data gives back the shape. Setting and then getting gives back the data. |
| `Curve.DefaultsReflect` | TimingCurves/BoxedBezierPath.swift:8-9 | The end handle's default is the start handle's default reflected through (0.5, 0.5). |
| `Curve.CurveModel.constructor` | TimingCurves/ContentView.swift:5-6 | A new editor state starts at the defaults, start (0,1) and end (1,0). |
| `Curve.CurveModel.DragStart` | TimingCurves/BoxedBezierPath.swift:336-341 | Dragging the start handle sets it to `UnitCP(location)`. The end handle is unchanged. The rendered start handle sits exactly under the pointer. |
| `Curve.CurveModel.DragEnd` | TimingCurves/BoxedBezierPath.swift:347-352 | Dragging the end handle sets it to `UnitCP(location)`. The start handle is unchanged. The rendered end handle sits exactly under the pointer. |
| `Curve.CurveModel.Reset` | TimingCurves/BoxedBezierPath.swift:53-58 | Reset restores start (0,1) and end (1,0), whatever the state was before. |
| `Curve.CurveModel.RenderGeometry` | TimingCurves/BoxedBezierPath.swift:250-304 | The shapes get the images of (0,0) and (1,1) as their corners. For a square of non-zero size, their two control points map back under `UnitCP` to exactly the stored unit control points. |
| `Curve.CurveModel.DotAnimation` | TimingCurves/BoxedBezierPath.swift:371-379 | The four timing parameters are the start point's components followed by the end point's. They are passed on unchanged and unchecked. |
| `Curve.DrawnCurveIsTimingCurve` | TimingCurves/BoxedBezierPath.swift:250-256 | At every parameter t, the curve `BezierPath` draws equals `ActualCP` of the timing curve from (0,0) to (1,1) whose controls are the four `DotAnimation` parameters. |
| `Curve.GuidesJoinCornersToHandles` | TimingCurves/BoxedBezierPath.swift:268-304 | The guide lines are the drawn curve's end tangents. One runs from the curve's start to its first control point, the other from the curve's end to its second control point. In unit space, for a square of non-zero size, they run from (0,0) to the start control point and from (1,1) to the end control point. |
| `Curve.ResetIsIdempotent` | TimingCurves/BoxedBezierPath.swift:53-58 | After a drag of the start handle, one reset and a second reset leave the same defaults. The second reset changes nothing. `Reset`'s own contract gives the defaults from any prior state. |
| `Curve.DragToOppositeCorners` | TimingCurves/BoxedBezierPath.swift:336-352 | In any non-degenerate frame, dragging start to the bottom-right corner and end to the top-left corner makes the timing parameters (1, 0, 0, 1). |

## Left out

- SwiftUI view construction is not modelled: `body`, `animatedDot`, `corners`, the handle styling, the info texts, the slider, the buttons' chrome and the light/dark colour switch. These are presentation only.
- `rectangle(with:)` is not modelled. It records the global frame through `DispatchQueue.main.async`, which is deferred concurrency, and its drawn size is a visual detail.
- The animation engine is not modelled. It interpolates `animatableData` and evaluates `Animation.timingCurve`. Only the lossless packing of the data and the four parameters handed over are modelled.
- Rasterisation through `Path.move`, `addCurve` and `addLine` is not modelled. The model keeps the path elements and the points handed to them, and uses the de Casteljau construction to fix which curve a cubic element means.
- `durationStr` and the `NumberFormatter` are not modelled; they are library formatting. The animation duration is not modelled either; it only matters to the animation engine.
- Floating-point rounding of `CGFloat` is not modelled. Coordinates are `real`, so the round trips are exact where the app's are only close.
- Geometry.UnitCP: requires a non-zero square side. With a zero-size frame, Swift's division produces infinities or NaN instead of failing, and the model does not represent those values.
- Curve.CurveModel.DragStart: requires a non-zero square side for the same reason, since it is built on `UnitCP`. Curve.CurveModel.DragEnd has the same requirement.
- The drag gesture's recognition and the sequence of `onChanged` callbacks belong to the UI framework. Each callback is modelled as one `DragStart` or `DragEnd` call.
