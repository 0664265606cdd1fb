/** The editor's state: the two unit-space control points the drag handles
    move, and what is derived from them for drawing and for the animation. */
module Curve {
  import opened Geometry
  import opened CubicBezier

  const InitialUnitStartControlPoint: Point := Point(0.0, 1.0)
  const InitialUnitEndControlPoint: Point := Point(1.0, 0.0)

  /** The four points BezierPath and ControlLinesPath are built from, all in
      pixel space. */
  datatype CurveGeometry = CurveGeometry(
    bottomLeft: Point,
    topRight: Point,
    actualStartCP: Point,
    actualEndCP: Point)

  /** The path operations a shape hands to the framework. */
  datatype PathElement =
    | MoveTo(to: Point)
    | CurveTo(to: Point, control1: Point, control2: Point)
    | LineTo(to: Point)

  /** The arguments of Animation.timingCurve, in order. */
  datatype TimingCurve = TimingCurve(c0x: real, c0y: real, c1x: real, c1y: real)

  /** The animatable data of both shapes: the two control points, packed as
      pairs of pairs. */
  type AnimatableData = ((real, real), (real, real))

  /** BezierPath.path(in:): one cubic from bottomLeft to topRight. */
  function BezierPath(geo: CurveGeometry): seq<PathElement> {
    [MoveTo(geo.bottomLeft), CurveTo(geo.topRight, geo.actualStartCP, geo.actualEndCP)]
  }

  /** ControlLinesPath.path(in:): the guide from each end to its control point. */
  function ControlLinesPath(geo: CurveGeometry): seq<PathElement> {
    [MoveTo(geo.bottomLeft), LineTo(geo.actualStartCP), MoveTo(geo.topRight), LineTo(geo.actualEndCP)]
  }

  function GetAnimatableData(geo: CurveGeometry): AnimatableData {
    ((geo.actualStartCP.x, geo.actualStartCP.y), (geo.actualEndCP.x, geo.actualEndCP.y))
  }

  function SetAnimatableData(geo: CurveGeometry, v: AnimatableData): (r: CurveGeometry)
    ensures r.bottomLeft == geo.bottomLeft && r.topRight == geo.topRight
  {
    geo.(actualStartCP := Point(v.0.0, v.0.1), actualEndCP := Point(v.1.0, v.1.1))
  }

  /** Packing and unpacking the animatable data loses nothing. */
  lemma AnimatableDataRoundTrip(geo: CurveGeometry, v: AnimatableData)
    ensures SetAnimatableData(geo, GetAnimatableData(geo)) == geo
    ensures GetAnimatableData(SetAnimatableData(geo, v)) == v
  {
  }

  /** The unit-space curve the timing parameters describe: from (0,0) to
      (1,1) with the two parameter points as controls. */
  function TimingCurvePoint(tc: TimingCurve, t: real): Point {
    BezierPoint(Point(0.0, 0.0), Point(tc.c0x, tc.c0y), Point(tc.c1x, tc.c1y), Point(1.0, 1.0), t)
  }

  /** The point at t of the curve a path starting with a move and a cubic draws. */
  function DrawnCurvePoint(path: seq<PathElement>, t: real): Point
    requires |path| == 2 && path[0].MoveTo? && path[1].CurveTo?
  {
    BezierPoint(path[0].to, path[1].control1, path[1].control2, path[1].to, t)
  }

  /** The end handle's default is the start handle's reflected through the
      centre of the unit square. */
  lemma DefaultsReflect()
    ensures InitialUnitEndControlPoint
         == Point(1.0 - InitialUnitStartControlPoint.x, 1.0 - InitialUnitStartControlPoint.y)
  {
  }

  class CurveModel {
    var unitStartControlPoint: Point
    var unitEndControlPoint: Point

    /** The defaults the enclosing view seeds its state with. */
    constructor ()
      ensures unitStartControlPoint == InitialUnitStartControlPoint
      ensures unitEndControlPoint == InitialUnitEndControlPoint
    {
      unitStartControlPoint := InitialUnitStartControlPoint;
      unitEndControlPoint := InitialUnitEndControlPoint;
    }

    /** The start handle's drag: the handle follows the pointer exactly. */
    method DragStart(location: Point, g: Frame)
      requires RectangleSize(g) != 0.0
      modifies this
      ensures unitStartControlPoint == UnitCP(location, g)
      ensures unitEndControlPoint == old(unitEndControlPoint)
      ensures RenderGeometry(g).actualStartCP == location
    {
      unitStartControlPoint := UnitCP(location, g);
    }

    /** The end handle's drag, symmetric to DragStart. */
    method DragEnd(location: Point, g: Frame)
      requires RectangleSize(g) != 0.0
      modifies this
      ensures unitEndControlPoint == UnitCP(location, g)
      ensures unitStartControlPoint == old(unitStartControlPoint)
      ensures RenderGeometry(g).actualEndCP == location
    {
      unitEndControlPoint := UnitCP(location, g);
    }

    /** The Reset Curve button. */
    method Reset()
      modifies this
      ensures unitStartControlPoint == InitialUnitStartControlPoint
      ensures unitEndControlPoint == InitialUnitEndControlPoint
    {
      unitStartControlPoint := InitialUnitStartControlPoint;
      unitEndControlPoint := InitialUnitEndControlPoint;
    }

    /** What bezierPath(with:) and controlLines(with:) hand their shapes: the
        fixed corners and the control points carried to pixel space. */
    function RenderGeometry(g: Frame): (r: CurveGeometry)
      reads this
      ensures r.bottomLeft == ActualCP(Point(0.0, 0.0), g)
      ensures r.topRight == ActualCP(Point(1.0, 1.0), g)
      ensures RectangleSize(g) != 0.0 ==>
                UnitCP(r.actualStartCP, g) == unitStartControlPoint
                && UnitCP(r.actualEndCP, g) == unitEndControlPoint
    {
      CurveGeometry(BottomLeft(g), TopRight(g),
                    ActualCP(unitStartControlPoint, g), ActualCP(unitEndControlPoint, g))
    }

    /** dotAnimation's timing-curve parameters, passed through unchecked. */
    function DotAnimation(): (tc: TimingCurve)
      reads this
      ensures Point(tc.c0x, tc.c0y) == unitStartControlPoint
      ensures Point(tc.c1x, tc.c1y) == unitEndControlPoint
    {
      TimingCurve(unitStartControlPoint.x, unitStartControlPoint.y,
                  unitEndControlPoint.x, unitEndControlPoint.y)
    }
  }

  /** The curve the editor draws is, point for point, the timing curve the dot
      is animated with, carried into the drawn square. */
  lemma DrawnCurveIsTimingCurve(m: CurveModel, g: Frame, t: real)
    ensures ActualCP(TimingCurvePoint(m.DotAnimation(), t), g)
         == DrawnCurvePoint(BezierPath(m.RenderGeometry(g)), t)
  {
    CornerMapping(g);
    var tc := m.DotAnimation();
    ActualCPOfBezier(Point(0.0, 0.0), Point(tc.c0x, tc.c0y), Point(tc.c1x, tc.c1y), Point(1.0, 1.0), t, g);
  }

  /** The guides are the drawn curve's end tangents: each starts where the
      curve starts or ends and runs to the control point on that side. In unit
      space they run from (0,0) to the start point and from (1,1) to the end. */
  lemma GuidesJoinCornersToHandles(m: CurveModel, g: Frame)
    ensures var guides, curve := ControlLinesPath(m.RenderGeometry(g)), BezierPath(m.RenderGeometry(g));
      && guides[0] == MoveTo(curve[0].to) && guides[1] == LineTo(curve[1].control1)
      && guides[2] == MoveTo(curve[1].to) && guides[3] == LineTo(curve[1].control2)
    ensures RectangleSize(g) != 0.0 ==>
      var guides := ControlLinesPath(m.RenderGeometry(g));
      && UnitCP(guides[0].to, g) == Point(0.0, 0.0)
      && UnitCP(guides[1].to, g) == m.unitStartControlPoint
      && UnitCP(guides[2].to, g) == Point(1.0, 1.0)
      && UnitCP(guides[3].to, g) == m.unitEndControlPoint
  {
    CornerMapping(g);
  }

  /** One scenario: a drag of the start handle, then two resets. The state
      ends at the defaults and the second reset changes nothing. Reset's own
      contract gives the defaults whatever the earlier state, and that is
      what makes it idempotent. */
  method ResetIsIdempotent(m: CurveModel, location: Point, g: Frame)
    requires RectangleSize(g) != 0.0
    modifies m
    ensures m.unitStartControlPoint == InitialUnitStartControlPoint
    ensures m.unitEndControlPoint == InitialUnitEndControlPoint
  {
    m.DragStart(location, g);
    m.Reset();
    var s, e := m.unitStartControlPoint, m.unitEndControlPoint;
    m.Reset();
    assert m.unitStartControlPoint == s && m.unitEndControlPoint == e;
  }

  /** Dragging the start handle to the square's bottom-right corner and the
      end handle to its top-left corner swaps the defaults, and the timing
      parameters become (1, 0, 0, 1). In the editor's 300 x 300 frame those
      corners are (202.5, 202.5) and (97.5, 97.5). */
  method DragToOppositeCorners(m: CurveModel, g: Frame)
    requires RectangleSize(g) != 0.0
    modifies m
    ensures m.unitStartControlPoint == Point(1.0, 0.0)
    ensures m.unitEndControlPoint == Point(0.0, 1.0)
    ensures m.DotAnimation() == TimingCurve(1.0, 0.0, 0.0, 1.0)
  {
    CornerMapping(g);
    m.DragStart(BottomRight(g), g);
    ActualCPInjective(m.unitStartControlPoint, Point(1.0, 0.0), g);
    m.DragEnd(TopLeft(g), g);
    ActualCPInjective(m.unitEndControlPoint, Point(0.0, 1.0), g);
  }
}
