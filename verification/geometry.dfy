/**
 * The geometry kernel of the screenshot widget: the pure helpers that turn
 * the list of dragged pointer positions into shape parameters (selection
 * rectangle, circle, arrow, highlighter band, cross, free line).
 *
 * Points are pairs of reals. The f64 library functions sqrt, atan, atan2,
 * cos and sin are left uninterpreted: they are the fields of a `Libm`
 * value, and where a property needs sqrt to be a square root (or cos and
 * sin to satisfy cos^2 + sin^2 = 1) it says so at the one argument used.
 */
module Geometry {
  import opened Wrappers

  /** The f64 value of pi. */
  const PI: real := 3.141592653589793

  /** Half-width of the highlighter band, fixed in the source. */
  const HIGHLIGHTER_WIDTH: real := 10.0

  datatype Point = Point(x: real, y: real)
  datatype Size = Size(width: real, height: real)
  datatype Segment = Segment(from: Point, to: Point)
  /** A selection rectangle as (min_x, min_y, max_x, max_y). */
  datatype Rect = Rect(minX: real, minY: real, maxX: real, maxY: real)
  datatype CircleParams = CircleParams(centerX: real, centerY: real, radius: real)
  /** The main line of an arrow followed by its two head segments. */
  datatype ArrowShape = ArrowShape(main: Segment, wing0: Segment, wing1: Segment)
  /** The four vertices of the highlighter band, in drawing order. */
  datatype Quad = Quad(p1: Point, p2: Point, p3: Point, p4: Point)

  /** The f64 functions the kernel calls, as opaque function values. */
  datatype Libm = Libm(
    sqrt: real -> real,
    atan: real -> real,
    atan2: (real, real) -> real,
    cos: real -> real,
    sin: real -> real)

  /** The square of `d`. */
  function Sq(d: real): real { d * d }

  /** `m.sqrt` is the non-negative square root at `x`. */
  predicate SqrtAt(m: Libm, x: real) {
    x >= 0.0 && m.sqrt(x) >= 0.0 && Sq(m.sqrt(x)) == x
  }

  /** `m.cos` and `m.sin` satisfy cos^2 + sin^2 = 1 at angle `t`. */
  predicate PythagoreanAt(m: Libm, t: real) {
    Sq(m.cos(t)) + Sq(m.sin(t)) == 1.0
  }

  function Min(a: real, b: real): real { if a <= b then a else b }
  function Max(a: real, b: real): real { if a <= b then b else a }

  function Midpoint(a: Point, b: Point): Point {
    Point((a.x + b.x) / 2.0, (a.y + b.y) / 2.0)
  }

  /** The vector from `b` to `a`. */
  function Sub(a: Point, b: Point): Point {
    Point(a.x - b.x, a.y - b.y)
  }

  function SquaredDistance(a: Point, b: Point): real {
    Sq(a.x - b.x) + Sq(a.y - b.y)
  }

  /** Where the drag started. */
  function First(ps: seq<Point>): Point
    requires |ps| > 0
  {
    ps[0]
  }

  /** Where the drag is now (or ended). */
  function Last(ps: seq<Point>): Point
    requires |ps| > 0
  {
    ps[|ps| - 1]
  }

  /** The two points differ on both axes. */
  predicate StrictlyApart(a: Point, b: Point) {
    a.x != b.x && a.y != b.y
  }

  /** Reference definition: the normalised rectangle spanned by two corners. */
  function SpannedRect(a: Point, b: Point): Rect {
    Rect(Min(a.x, b.x), Min(a.y, b.y), Max(a.x, b.x), Max(a.y, b.y))
  }

  /**
   * make_rectangle_from_points: the rectangle spanned by the first and the
   * last position. The four orientation cases normalise it; when the two
   * points share an x or a y coordinate no case applies and the all-zero
   * rectangle is returned.
   */
  function MakeRectangleFromPoints(ps: seq<Point>): (r: Option<Rect>)
    ensures r.None? <==> |ps| == 0
    ensures r.Some? ==> r.value.minX <= r.value.maxX && r.value.minY <= r.value.maxY
    ensures |ps| > 0 && StrictlyApart(First(ps), Last(ps)) ==>
      r == Some(SpannedRect(First(ps), Last(ps))) &&
      r.value.minX < r.value.maxX && r.value.minY < r.value.maxY
    ensures |ps| > 0 && !StrictlyApart(First(ps), Last(ps)) ==> r == Some(Rect(0.0, 0.0, 0.0, 0.0))
  {
    if |ps| == 0 then None
    else
      var p1, p2 := First(ps), Last(ps);
      if p1.x < p2.x && p1.y < p2.y then Some(Rect(p1.x, p1.y, p2.x, p2.y))
      else if p1.x > p2.x && p1.y > p2.y then Some(Rect(p2.x, p2.y, p1.x, p1.y))
      else if p1.x < p2.x && p1.y > p2.y then Some(Rect(p1.x, p2.y, p2.x, p1.y))
      else if p1.x > p2.x && p1.y < p2.y then Some(Rect(p2.x, p1.y, p1.x, p2.y))
      else Some(Rect(0.0, 0.0, 0.0, 0.0))
  }

  /** Intermediate samples of the drag never influence the rectangle. */
  lemma RectangleIgnoresIntermediatePoints(a: Point, middle: seq<Point>, b: Point)
    ensures MakeRectangleFromPoints([a] + middle + [b]) == MakeRectangleFromPoints([a, b])
  {
    var ps := [a] + middle + [b];
    assert First(ps) == a && Last(ps) == b;
  }

  /** The squared diagonal of the integer rectangle, as `.pow(2)` sums it in i32. */
  function DiagonalSquared(minX: int, minY: int, maxX: int, maxY: int): real {
    ((maxX - minX) * (maxX - minX) + (maxY - minY) * (maxY - minY)) as real
  }

  /**
   * compute_circle_center_radius: the circle circumscribing the rectangle,
   * centred on its midpoint with half the diagonal as radius.
   */
  function CircleCenterRadius(minX: int, minY: int, maxX: int, maxY: int, m: Libm): (c: CircleParams)
    ensures 2.0 * c.centerX == (minX + maxX) as real
    ensures 2.0 * c.centerY == (minY + maxY) as real
    ensures SqrtAt(m, DiagonalSquared(minX, minY, maxX, maxY)) ==>
      c.radius >= 0.0 && Sq(2.0 * c.radius) == DiagonalSquared(minX, minY, maxX, maxY)
  {
    CircleParams(
      (maxX - minX) as real / 2.0 + minX as real,
      (maxY - minY) as real / 2.0 + minY as real,
      m.sqrt(DiagonalSquared(minX, minY, maxX, maxY)) / 2.0)
  }

  predicate OnCircle(c: CircleParams, x: real, y: real) {
    Sq(x - c.centerX) + Sq(y - c.centerY) == Sq(c.radius)
  }

  /** All four corners of the rectangle lie on the circle (it is circumscribed, not inscribed). */
  lemma CircleThroughCorners(minX: int, minY: int, maxX: int, maxY: int, m: Libm)
    requires SqrtAt(m, DiagonalSquared(minX, minY, maxX, maxY))
    ensures var c := CircleCenterRadius(minX, minY, maxX, maxY, m);
      OnCircle(c, minX as real, minY as real) && OnCircle(c, maxX as real, minY as real) &&
      OnCircle(c, minX as real, maxY as real) && OnCircle(c, maxX as real, maxY as real)
  {
    var c := CircleCenterRadius(minX, minY, maxX, maxY, m);
    var hx, hy := (maxX - minX) as real / 2.0, (maxY - minY) as real / 2.0;
    assert minX as real - c.centerX == -hx && maxX as real - c.centerX == hx;
    assert minY as real - c.centerY == -hy && maxY as real - c.centerY == hy;
    SqNeg(hx);
    SqNeg(hy);
    SqDouble(hx);
    SqDouble(hy);
    SqDouble(c.radius);
    SqOfInt(maxX - minX);
    SqOfInt(maxY - minY);
    assert 2.0 * hx == (maxX - minX) as real && 2.0 * hy == (maxY - minY) as real;
  }

  lemma SqNeg(u: real)
    ensures Sq(-u) == Sq(u)
  {
  }

  lemma SqDouble(u: real)
    ensures Sq(2.0 * u) == 4.0 * Sq(u)
  {
  }

  lemma SqOfInt(n: int)
    ensures Sq(n as real) == (n * n) as real
  {
  }

  /**
   * The arrow helpers divide by the drag length: it must not be zero. With
   * an exact square root this holds exactly when the drag ends somewhere
   * else than where it started (see ArrowDefinedWhenApart).
   */
  predicate ArrowDefined(ps: seq<Point>, m: Libm) {
    |ps| > 0 ==> ArrowLength(First(ps), Last(ps), m) != 0.0
  }

  /** A drag has non-zero length exactly when it ends where it did not start. */
  lemma DragLengthPositive(a: Point, b: Point)
    ensures SquaredDistance(b, a) > 0.0 <==> a != b
  {
    SqNonNeg(b.x - a.x);
    SqNonNeg(b.y - a.y);
    if a.x != b.x {
      SqPositive(b.x - a.x);
    } else if a.y != b.y {
      SqPositive(b.y - a.y);
    }
  }

  lemma SqNonNeg(d: real)
    ensures Sq(d) >= 0.0
  {
    MulSelfNonNeg(d);
  }

  lemma MulSelfNonNeg(d: real)
    ensures d * d >= 0.0
  {
  }

  lemma SqPositive(d: real)
    requires d != 0.0
    ensures Sq(d) > 0.0
  {
    SqNonNeg(d);
    QuotientSquare(1.0, d);
    assert Sq(1.0) == 1.0;
  }

  lemma SqUnfold(d: real)
    ensures Sq(d) == d * d
  {
  }

  /** The length of the drag from `a` to `b`. */
  function ArrowLength(a: Point, b: Point, m: Libm): real {
    m.sqrt(SquaredDistance(b, a))
  }

  lemma ArrowLengthPositive(a: Point, b: Point, m: Libm)
    requires SquaredDistance(b, a) > 0.0 && SqrtAt(m, SquaredDistance(b, a))
    ensures ArrowLength(a, b, m) > 0.0
  {
  }

  /** With an exact square root, an arrow is defined for every drag that moved. */
  lemma ArrowDefinedWhenApart(ps: seq<Point>, m: Libm)
    requires |ps| > 0 && First(ps) != Last(ps)
    requires SqrtAt(m, SquaredDistance(Last(ps), First(ps)))
    ensures ArrowDefined(ps, m)
  {
    DragLengthPositive(First(ps), Last(ps));
    ArrowLengthPositive(First(ps), Last(ps), m);
  }

  /** The point one unit back from `b` along the direction from `a` to `b`. */
  function ArrowBase(a: Point, b: Point, len: real): Point
    requires len != 0.0
  {
    Point(b.x - (b.x - a.x) / len, b.y - (b.y - a.y) / len)
  }

  /** The end of a head segment: `tip` back from `base` along angle `theta`. */
  function WingEnd(base: Point, tip: real, theta: real, m: Libm): Point {
    Point(base.x - tip * m.cos(theta), base.y - tip * m.sin(theta))
  }

  /**
   * compute_arrow_points: the main line from the first to the last position
   * and two head segments starting at the last position, each ending a
   * third of the arrow length back from the base point at +-30 degrees.
   */
  function ComputeArrowPoints(ps: seq<Point>, m: Libm): (r: Option<ArrowShape>)
    requires ArrowDefined(ps, m)
    ensures r.None? <==> |ps| == 0
    ensures r.Some? ==> r.value.main == Segment(First(ps), Last(ps))
    ensures r.Some? ==> r.value.wing0.from == Last(ps) && r.value.wing1.from == Last(ps)
    ensures r.Some? ==>
      var a, b := First(ps), Last(ps);
      var len := ArrowLength(a, b, m);
      var angle := m.atan2(b.y - a.y, b.x - a.x);
      len != 0.0 &&
      r.value.wing0.to == WingEnd(ArrowBase(a, b, len), len / 3.0, angle + PI / 6.0, m) &&
      r.value.wing1.to == WingEnd(ArrowBase(a, b, len), len / 3.0, angle - PI / 6.0, m)
  {
    if |ps| == 0 then None
    else
      var p0, p1 := First(ps), Last(ps);
      var arrowLength := ArrowLength(p0, p1, m);
      var angle := m.atan2(p1.y - p0.y, p1.x - p0.x);
      var arrowTip := arrowLength / 3.0;
      var base := ArrowBase(p0, p1, arrowLength);
      Some(ArrowShape(
        Segment(p0, p1),
        Segment(p1, WingEnd(base, arrowTip, angle + PI / 6.0, m)),
        Segment(p1, WingEnd(base, arrowTip, angle - PI / 6.0, m))))
  }

  /** The base point lies on the shaft, exactly one unit back from the tip. */
  lemma ArrowBaseOnShaft(a: Point, b: Point, m: Libm)
    requires SquaredDistance(b, a) > 0.0 && SqrtAt(m, SquaredDistance(b, a))
    ensures ArrowLength(a, b, m) > 0.0
    ensures var base := ArrowBase(a, b, ArrowLength(a, b, m));
      SquaredDistance(b, base) == 1.0 &&
      (base.x - a.x) * (b.y - a.y) == (base.y - a.y) * (b.x - a.x) &&
      (b.x - base.x) * (b.x - a.x) + (b.y - base.y) * (b.y - a.y) > 0.0
  {
    ArrowLengthPositive(a, b, m);
    var len := ArrowLength(a, b, m);
    var dx, dy := b.x - a.x, b.y - a.y;
    var base := ArrowBase(a, b, len);
    assert b.x - base.x == dx / len && b.y - base.y == dy / len;
    UnitScaled(dx, dy, len);
    assert base.x - a.x == dx - dx / len && base.y - a.y == dy - dy / len;
    Collinear(dx, dy, len);
    Projection(dx, dy, len);
  }

  /** The shaft's direction divided by its length, projected on the shaft, is the length itself. */
  lemma Projection(dx: real, dy: real, len: real)
    requires len > 0.0 && Sq(len) == Sq(dx) + Sq(dy)
    ensures (dx / len) * dx + (dy / len) * dy == len
  {
    var ux, uy := dx / len, dy / len;
    assert ux * len == dx && uy * len == dy;
    var p := ux * dx + uy * dy;
    assert p * len == dx * dx + dy * dy;
    SqUnfold(dx);
    SqUnfold(dy);
    SqUnfold(len);
    assert p * len == len * len;
  }

  /** Dividing a vector by its own length gives a unit vector. */
  lemma UnitScaled(dx: real, dy: real, len: real)
    requires len != 0.0 && Sq(len) == Sq(dx) + Sq(dy)
    ensures Sq(dx / len) + Sq(dy / len) == 1.0
  {
    QuotientSquare(dx, len);
    QuotientSquare(dy, len);
    var u, v, n := Sq(dx / len), Sq(dy / len), Sq(len);
    SqPositive(len);
    assert (u + v - 1.0) * n == 0.0;
  }

  lemma QuotientSquare(d: real, len: real)
    requires len != 0.0
    ensures Sq(d / len) * Sq(len) == Sq(d)
  {
    var q := d / len;
    assert q * len == d;
    SqUnfold(q);
    SqUnfold(len);
    SqUnfold(d);
    assert (q * q) * (len * len) == (q * len) * (q * len);
  }

  /** Scaling a vector keeps the point it reaches on the line through its origin. */
  lemma Collinear(dx: real, dy: real, len: real)
    requires len != 0.0
    ensures (dx - dx / len) * dy == (dy - dy / len) * dx
  {
    var ux, uy := dx / len, dy / len;
    assert ux * dy == uy * dx by {
      assert ux * len == dx && uy * len == dy;
      assert (ux * dy) * len == (uy * dx) * len;
    }
  }

  /** Each head segment is a third of the arrow length, measured from the base point. */
  lemma ArrowWingsTipLength(ps: seq<Point>, m: Libm)
    requires |ps| > 0 && ArrowDefined(ps, m)
    requires var angle := m.atan2(Last(ps).y - First(ps).y, Last(ps).x - First(ps).x);
      PythagoreanAt(m, angle + PI / 6.0) && PythagoreanAt(m, angle - PI / 6.0)
    ensures var a, b := First(ps), Last(ps);
      var len := ArrowLength(a, b, m);
      var base := ArrowBase(a, b, len);
      var arrow := ComputeArrowPoints(ps, m).value;
      SquaredDistance(arrow.wing0.to, base) == Sq(len / 3.0) &&
      SquaredDistance(arrow.wing1.to, base) == Sq(len / 3.0)
  {
    var a, b := First(ps), Last(ps);
    var len := ArrowLength(a, b, m);
    var base := ArrowBase(a, b, len);
    var angle := m.atan2(b.y - a.y, b.x - a.x);
    WingLength(base, len / 3.0, angle + PI / 6.0, m);
    WingLength(base, len / 3.0, angle - PI / 6.0, m);
  }

  lemma WingLength(base: Point, tip: real, theta: real, m: Libm)
    requires PythagoreanAt(m, theta)
    ensures SquaredDistance(WingEnd(base, tip, theta, m), base) == Sq(tip)
  {
    var c, s := m.cos(theta), m.sin(theta);
    var w := WingEnd(base, tip, theta, m);
    assert w.x - base.x == -(tip * c) && w.y - base.y == -(tip * s);
    SqNeg(tip * c);
    SqNeg(tip * s);
    RotatedLength(tip, c, s);
  }

  /** `k` times a unit vector has length `k`. */
  lemma RotatedLength(k: real, c: real, s: real)
    requires Sq(c) + Sq(s) == 1.0
    ensures Sq(k * c) + Sq(k * s) == Sq(k)
  {
    SqUnfold(k * c);
    SqUnfold(k * s);
    SqUnfold(k);
    SqUnfold(c);
    SqUnfold(s);
    assert (k * c) * (k * c) + (k * s) * (k * s) == (k * k) * (c * c + s * s);
  }

  /**
   * The angle of the segment with direction (dx, dy) as `(dy / dx).atan()`
   * computes it in f64: a vertical segment divides by zero and gives an
   * infinite slope, whose arctangent is +-pi/2.
   */
  function SlopeAngle(dx: real, dy: real, m: Libm): real
    requires dx != 0.0 || dy != 0.0
  {
    if dx == 0.0 then (if dy > 0.0 then PI / 2.0 else -PI / 2.0)
    else m.atan(dy / dx)
  }

  /** The offset from the segment to the edges of the highlighter band. */
  function HighlighterDelta(a: Point, b: Point, m: Libm): Point
    requires a != b
  {
    var angle := SlopeAngle(b.x - a.x, b.y - a.y, m);
    Point(HIGHLIGHTER_WIDTH * m.cos(angle + PI / 2.0), HIGHLIGHTER_WIDTH * m.sin(angle + PI / 2.0))
  }

  /**
   * compute_highlighter_points: the band around the segment from the first
   * to the last position, obtained by shifting both endpoints by +-delta.
   */
  function ComputeHighlighterPoints(ps: seq<Point>, m: Libm): (r: Option<Quad>)
    requires |ps| > 0 ==> First(ps) != Last(ps)
    ensures r.None? <==> |ps| == 0
    ensures r.Some? ==>
      Midpoint(r.value.p1, r.value.p2) == First(ps) && Midpoint(r.value.p3, r.value.p4) == Last(ps)
    ensures r.Some? ==>
      Sub(r.value.p4, r.value.p1) == Sub(Last(ps), First(ps)) &&
      Sub(r.value.p3, r.value.p2) == Sub(Last(ps), First(ps))
  {
    if |ps| == 0 then None
    else
      var point1, point2 := First(ps), Last(ps);
      var delta := HighlighterDelta(point1, point2, m);
      Some(Quad(
        Point(point1.x + delta.x, point1.y + delta.y),
        Point(point1.x - delta.x, point1.y - delta.y),
        Point(point2.x - delta.x, point2.y - delta.y),
        Point(point2.x + delta.x, point2.y + delta.y)))
  }

  /** Both short sides of the band are twice the highlighter width long. */
  lemma HighlighterBandWidth(ps: seq<Point>, m: Libm)
    requires |ps| > 0 && First(ps) != Last(ps)
    requires PythagoreanAt(m, SlopeAngle(Last(ps).x - First(ps).x, Last(ps).y - First(ps).y, m) + PI / 2.0)
    ensures var q := ComputeHighlighterPoints(ps, m).value;
      SquaredDistance(q.p1, q.p2) == Sq(2.0 * HIGHLIGHTER_WIDTH) &&
      SquaredDistance(q.p3, q.p4) == Sq(2.0 * HIGHLIGHTER_WIDTH)
  {
    var angle := SlopeAngle(Last(ps).x - First(ps).x, Last(ps).y - First(ps).y, m);
    var c, s := m.cos(angle + PI / 2.0), m.sin(angle + PI / 2.0);
    var q := ComputeHighlighterPoints(ps, m).value;
    assert q.p1.x - q.p2.x == 2.0 * HIGHLIGHTER_WIDTH * c && q.p1.y - q.p2.y == 2.0 * HIGHLIGHTER_WIDTH * s;
    assert q.p3.x - q.p4.x == -(2.0 * HIGHLIGHTER_WIDTH * c) && q.p3.y - q.p4.y == -(2.0 * HIGHLIGHTER_WIDTH * s);
    SqNeg(2.0 * HIGHLIGHTER_WIDTH * c);
    SqNeg(2.0 * HIGHLIGHTER_WIDTH * s);
    RotatedLength(2.0 * HIGHLIGHTER_WIDTH, c, s);
  }

  /** The free line: one segment between each pair of consecutive positions. */
  function Polyline(ps: seq<Point>): (r: seq<Segment>)
    ensures |r| == if |ps| == 0 then 0 else |ps| - 1
    ensures forall i :: 0 <= i < |r| ==> r[i] == Segment(ps[i], ps[i + 1])
  {
    if |ps| <= 1 then [] else [Segment(ps[0], ps[1])] + Polyline(ps[1..])
  }

  /**
   * The cross: the diagonal from the first to the last position and the
   * other diagonal of the box they span; both cross at the box's centre.
   */
  function CrossSegments(ps: seq<Point>): (r: seq<Segment>)
    requires |ps| > 0
    ensures |r| == 2 && r[0] == Segment(First(ps), Last(ps))
    ensures r[1] == Segment(Point(First(ps).x, Last(ps).y), Point(Last(ps).x, First(ps).y))
    ensures Midpoint(r[0].from, r[0].to) == Midpoint(r[1].from, r[1].to)
  {
    var a, b := First(ps), Last(ps);
    [Segment(a, b), Segment(Point(a.x, b.y), Point(b.x, a.y))]
  }
}
