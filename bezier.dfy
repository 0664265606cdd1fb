/** The cubic bezier segment that both the drawn path and the dot's timing
    curve stand for, given by de Casteljau's construction. Rasterisation and
    easing evaluation are the UI framework's; this module only fixes which
    curve is meant and shows that the unit-to-pixel map carries one onto the
    other. */
module CubicBezier {
  import opened Geometry

  /** The point a fraction t of the way from p to q. */
  function Lerp(p: Point, q: Point, t: real): Point {
    Point(p.x + t * (q.x - p.x), p.y + t * (q.y - p.y))
  }

  /** The point at parameter t of the cubic from p0 to p3 with controls p1, p2. */
  function BezierPoint(p0: Point, p1: Point, p2: Point, p3: Point, t: real): Point {
    var a, b, c := Lerp(p0, p1, t), Lerp(p1, p2, t), Lerp(p2, p3, t);
    Lerp(Lerp(a, b, t), Lerp(b, c, t), t)
  }

  /** The curve starts at its first point and ends at its last. */
  lemma Endpoints(p0: Point, p1: Point, p2: Point, p3: Point)
    ensures BezierPoint(p0, p1, p2, p3, 0.0) == p0
    ensures BezierPoint(p0, p1, p2, p3, 1.0) == p3
  {
  }

  /** A map of the plane that scales and shifts each axis on its own. */
  function Affine(p: Point, ox: real, kx: real, oy: real, ky: real): Point {
    Point(ox + kx * p.x, oy + ky * p.y)
  }

  /** Interpolation commutes with an axis-wise affine map. */
  lemma LerpAffine(p: Point, q: Point, t: real, ox: real, kx: real, oy: real, ky: real)
    ensures Affine(Lerp(p, q, t), ox, kx, oy, ky)
         == Lerp(Affine(p, ox, kx, oy, ky), Affine(q, ox, kx, oy, ky), t)
  {
    var l, ap, aq := Lerp(p, q, t), Affine(p, ox, kx, oy, ky), Affine(q, ox, kx, oy, ky);
    // one coordinate at a time: the point equality alone is too much for the solver
    assert Affine(l, ox, kx, oy, ky).x == Lerp(ap, aq, t).x;
    assert Affine(l, ox, kx, oy, ky).y == Lerp(ap, aq, t).y;
  }

  /** So does every point of a cubic bezier. */
  lemma BezierAffine(p0: Point, p1: Point, p2: Point, p3: Point, t: real,
                     ox: real, kx: real, oy: real, ky: real)
    ensures Affine(BezierPoint(p0, p1, p2, p3, t), ox, kx, oy, ky)
         == BezierPoint(Affine(p0, ox, kx, oy, ky), Affine(p1, ox, kx, oy, ky),
                        Affine(p2, ox, kx, oy, ky), Affine(p3, ox, kx, oy, ky), t)
  {
    var a, b, c := Lerp(p0, p1, t), Lerp(p1, p2, t), Lerp(p2, p3, t);
    var d, e := Lerp(a, b, t), Lerp(b, c, t);
    LerpAffine(p0, p1, t, ox, kx, oy, ky);
    LerpAffine(p1, p2, t, ox, kx, oy, ky);
    LerpAffine(p2, p3, t, ox, kx, oy, ky);
    LerpAffine(a, b, t, ox, kx, oy, ky);
    LerpAffine(b, c, t, ox, kx, oy, ky);
    LerpAffine(d, e, t, ox, kx, oy, ky);
  }

  /** actualCP is the axis-wise affine map with slope s on x and -s on y. */
  lemma ActualCPIsAffine(p: Point, g: Frame)
    ensures ActualCP(p, g) == Affine(p, BottomLeft(g).x, RectangleSize(g), BottomLeft(g).y, -RectangleSize(g))
  {
  }

  /** Mapping a curve's four points to pixel space maps every point of it:
      the pixel curve is the image of the unit curve. */
  lemma ActualCPOfBezier(p0: Point, p1: Point, p2: Point, p3: Point, t: real, g: Frame)
    ensures ActualCP(BezierPoint(p0, p1, p2, p3, t), g)
         == BezierPoint(ActualCP(p0, g), ActualCP(p1, g), ActualCP(p2, g), ActualCP(p3, g), t)
  {
    var ox, kx, oy, ky := BottomLeft(g).x, RectangleSize(g), BottomLeft(g).y, -RectangleSize(g);
    ActualCPIsAffine(BezierPoint(p0, p1, p2, p3, t), g);
    ActualCPIsAffine(p0, g);
    ActualCPIsAffine(p1, g);
    ActualCPIsAffine(p2, g);
    ActualCPIsAffine(p3, g);
    BezierAffine(p0, p1, p2, p3, t, ox, kx, oy, ky);
  }
}
