/** The coordinate mapping behind the boxed bezier editor.

    Unit space is the square [0,1] x [0,1] with its origin at the bottom left
    and y growing upwards; pixel space is the view's own coordinate system,
    origin at the top left and y growing downwards. The square is drawn
    centred in the view, its side a fixed fraction of the view's shorter
    dimension. CGFloat is modelled as real, so every identity below is exact. */
module Geometry {

  /** A CGPoint. */
  datatype Point = Point(x: real, y: real)

  /** The size of the GeometryProxy the view lays itself out in. */
  datatype Frame = Frame(width: real, height: real)

  /** The fraction of the shorter frame dimension used as the square's side. */
  const RectangleSizeFraction: real := 0.35

  /** The fixed size the editor gives its GeometryReader. */
  const GeometryReaderSize: Frame := Frame(300.0, 300.0)

  /** A frame the host can lay the editor out in without collapsing the square. */
  predicate NonDegenerate(g: Frame) {
    g.width > 0.0 && g.height > 0.0
  }

  function Min(a: real, b: real): (m: real)
    ensures m <= a && m <= b
    ensures m == a || m == b
  {
    if a <= b then a else b
  }

  /** rectangleSize: the side of the square, in pixels. */
  function RectangleSize(g: Frame): (s: real)
    ensures s <= RectangleSizeFraction * g.width && s <= RectangleSizeFraction * g.height
    ensures s == RectangleSizeFraction * g.width || s == RectangleSizeFraction * g.height
    ensures NonDegenerate(g) ==> s > 0.0
  {
    RectangleSizeFraction * Min(g.width, g.height)
  }

  function Center(g: Frame): Point {
    Point(g.width / 2.0, g.height / 2.0)
  }

  function TopLeft(g: Frame): Point {
    var c := Center(g);
    var s := RectangleSize(g) / 2.0;
    Point(c.x - s, c.y - s)
  }

  function TopRight(g: Frame): Point {
    var c := Center(g);
    var s := RectangleSize(g) / 2.0;
    Point(c.x + s, c.y - s)
  }

  function BottomLeft(g: Frame): Point {
    var c := Center(g);
    var s := RectangleSize(g) / 2.0;
    Point(c.x - s, c.y + s)
  }

  function BottomRight(g: Frame): Point {
    var c := Center(g);
    var s := RectangleSize(g) / 2.0;
    Point(c.x + s, c.y + s)
  }

  /** actualCP: from unit space to pixel space. */
  function ActualCP(unit: Point, g: Frame): Point {
    var s := RectangleSize(g);
    var bl := BottomLeft(g);
    Point(bl.x + unit.x * s, bl.y - unit.y * s)
  }

  /** unitCP: from pixel space back to unit space. The division by the side
      is only defined for a square of non-zero size. */
  function UnitCP(actual: Point, g: Frame): (r: Point)
    requires RectangleSize(g) != 0.0
    ensures ActualCP(r, g) == actual
  {
    var s := RectangleSize(g);
    var bl := BottomLeft(g);
    Point((actual.x - bl.x) / s, (bl.y - actual.y) / s)
  }

  /** The point of unit space lies in the unit square. */
  predicate InUnitSquare(p: Point) {
    0.0 <= p.x <= 1.0 && 0.0 <= p.y <= 1.0
  }

  /** The pixel lies in the drawn square (edges included). */
  predicate InSquare(q: Point, g: Frame) {
    BottomLeft(g).x <= q.x <= TopRight(g).x && TopRight(g).y <= q.y <= BottomLeft(g).y
  }

  lemma RoundTripUnit(p: Point, g: Frame)
    requires RectangleSize(g) != 0.0
    ensures UnitCP(ActualCP(p, g), g) == p
  {
  }

  /** A named corollary of UnitCP's postcondition. */
  lemma RoundTripPixel(q: Point, g: Frame)
    requires RectangleSize(g) != 0.0
    ensures ActualCP(UnitCP(q, g), g) == q
  {
  }

  /** Distinct unit points are drawn at distinct pixels. */
  lemma ActualCPInjective(p: Point, p': Point, g: Frame)
    requires RectangleSize(g) != 0.0
    requires ActualCP(p, g) == ActualCP(p', g)
    ensures p == p'
  {
    RoundTripUnit(p, g);
    RoundTripUnit(p', g);
  }

  /** The four corners form a square of side RectangleSize centred on Center;
      in pixel space the bottom edge has the larger y. */
  lemma SquareShape(g: Frame)
    ensures TopRight(g).x - BottomLeft(g).x == RectangleSize(g)
    ensures BottomLeft(g).y - TopRight(g).y == RectangleSize(g)
    ensures TopLeft(g) == Point(BottomLeft(g).x, TopRight(g).y)
    ensures BottomRight(g) == Point(TopRight(g).x, BottomLeft(g).y)
    ensures 2.0 * Center(g).x == BottomLeft(g).x + TopRight(g).x
    ensures 2.0 * Center(g).y == BottomLeft(g).y + TopRight(g).y
    ensures NonDegenerate(g) ==> TopRight(g).y < BottomLeft(g).y && BottomLeft(g).x < TopRight(g).x
  {
  }

  /** The corners and the centre of the unit square land on the drawn
      square's corners and centre. */
  lemma CornerMapping(g: Frame)
    ensures ActualCP(Point(0.0, 0.0), g) == BottomLeft(g)
    ensures ActualCP(Point(1.0, 1.0), g) == TopRight(g)
    ensures ActualCP(Point(0.0, 1.0), g) == TopLeft(g)
    ensures ActualCP(Point(1.0, 0.0), g) == BottomRight(g)
    ensures ActualCP(Point(0.5, 0.5), g) == Center(g)
    ensures RectangleSize(g) != 0.0 ==>
              UnitCP(BottomLeft(g), g) == Point(0.0, 0.0) && UnitCP(TopRight(g), g) == Point(1.0, 1.0)
  {
  }

  /** Unit y grows upwards, pixel y downwards; unit x and pixel x agree. */
  lemma Orientation(p: Point, p': Point, g: Frame)
    requires NonDegenerate(g)
    ensures p.y < p'.y <==> ActualCP(p', g).y < ActualCP(p, g).y
    ensures p.x < p'.x <==> ActualCP(p, g).x < ActualCP(p', g).x
  {
  }

  /** Nothing is clamped: a pixel maps into the unit square exactly when it
      lies in the drawn square, so a drag outside the square gives a control
      point outside [0,1] x [0,1]. */
  lemma SquareCorrespondence(q: Point, g: Frame)
    requires NonDegenerate(g)
    ensures InSquare(q, g) <==> InUnitSquare(UnitCP(q, g))
  {
    var s, bl, u := RectangleSize(g), BottomLeft(g), UnitCP(q, g);
    SquareShape(g);
    // one axis at a time: a unit coordinate scaled by the side is the offset from bottomLeft
    ScaledInUnit(u.x, s, q.x - bl.x);
    ScaledInUnit(u.y, s, bl.y - q.y);
  }

  /** A coordinate lies in [0,1] exactly when its multiple by a positive side lies in [0,side]. */
  lemma ScaledInUnit(a: real, s: real, d: real)
    requires s > 0.0 && d == a * s
    ensures 0.0 <= a <= 1.0 <==> 0.0 <= d <= s
  {
  }

  /** The editor's fixed 300 x 300 frame. */
  lemma FixedFrameExample()
    ensures RectangleSize(GeometryReaderSize) == 105.0
    ensures Center(GeometryReaderSize) == Point(150.0, 150.0)
    ensures BottomLeft(GeometryReaderSize) == Point(97.5, 202.5)
    ensures TopRight(GeometryReaderSize) == Point(202.5, 97.5)
  {
  }

  /** In that frame the points (1,0) and (0,1) of unit space are the square's
      bottom-right and top-left corners. */
  lemma FixedFrameOppositeCorners()
    ensures BottomRight(GeometryReaderSize) == Point(202.5, 202.5)
    ensures TopLeft(GeometryReaderSize) == Point(97.5, 97.5)
    ensures ActualCP(Point(1.0, 0.0), GeometryReaderSize) == Point(202.5, 202.5)
    ensures ActualCP(Point(0.0, 1.0), GeometryReaderSize) == Point(97.5, 97.5)
  {
    FixedFrameExample();
  }
}
