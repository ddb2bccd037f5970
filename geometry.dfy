/**
 * Where the ripple's radius is measured to: one corner of the host box,
 * chosen per axis by a quarter-extent threshold, and the Euclidean distance
 * from the click to it.
 */
module Geometry {
  datatype Point = Point(x: real, y: real)

  /** The scale the ripple circle reaches at the end of its animation. */
  const EndScale: real := 1.5

  /**
   * The corner coordinate chosen along one axis for a click at `local`
   * (relative to the box's start): the start of the axis when the click lies
   * beyond a quarter of the extent, the far end otherwise.
   */
  function Corner(local: real, extent: real): (c: real)
    ensures c == 0.0 || c == extent
    ensures local > extent / 4.0 ==> c == 0.0
    ensures local <= extent / 4.0 ==> c == extent
  {
    if local > extent / 4.0 then 0.0 else extent
  }

  /** The corner of a `width` by `height` box chosen for a click at `local`. */
  function ChosenCorner(local: Point, width: real, height: real): (p: Point)
    ensures p.x == 0.0 || p.x == width
    ensures p.y == 0.0 || p.y == height
  {
    Point(Corner(local.x, width), Corner(local.y, height))
  }

  function Abs(a: real): (r: real)
    ensures r >= 0.0 && (r == a || r == -a)
  {
    if a < 0.0 then -a else a
  }

  /** Reference definition: the end of the axis farther from `local` (the start on a tie). */
  function FarthestCorner(local: real, extent: real): (c: real)
    ensures c == 0.0 || c == extent
    ensures Abs(local - c) >= Abs(local) && Abs(local - c) >= Abs(local - extent)
  {
    if Abs(local) >= Abs(local - extent) then 0.0 else extent
  }

  /**
   * The chosen corner is the farthest one along an axis exactly when the
   * click does not lie strictly between a quarter and a half of the extent.
   */
  lemma CornerIsFarthestOutsideBand(local: real, extent: real)
    requires extent > 0.0
    ensures Corner(local, extent) == FarthestCorner(local, extent)
            <==> !(extent / 4.0 < local < extent / 2.0)
  {
  }

  function SquaredDistance(p: Point, q: Point): (d: real)
    ensures d >= 0.0
  {
    (p.x - q.x) * (p.x - q.x) + (p.y - q.y) * (p.y - q.y)
  }

  /** `hypot` behaves as `Math.hypot`: the non-negative square root of the sum of squares. */
  ghost predicate IsHypot(hypot: (real, real) -> real) {
    forall dx, dy :: hypot(dx, dy) >= 0.0 && hypot(dx, dy) * hypot(dx, dy) == dx * dx + dy * dy
  }

  lemma SquareMonotone(a: real, b: real)
    requires 0.0 <= a <= b
    ensures a * a <= b * b
  {
    assert a * a <= a * b;
    assert a * b <= b * b;
  }

  /** Along one axis, the chosen corner lies at least a quarter and at most the whole extent away. */
  lemma {:induction false} CornerGap(local: real, extent: real)
    requires 0.0 <= local <= extent
    ensures 16.0 * (Corner(local, extent) - local) * (Corner(local, extent) - local)
            >= extent * extent
    ensures (Corner(local, extent) - local) * (Corner(local, extent) - local) <= extent * extent
  {
    var gap := Abs(Corner(local, extent) - local);
    assert extent / 4.0 <= gap <= extent;
    SquareMonotone(extent / 4.0, gap);
    SquareMonotone(gap, extent);
    assert gap * gap == (Corner(local, extent) - local) * (Corner(local, extent) - local);
  }

  /**
   * For a click inside the box, the squared radius lies between a sixteenth
   * of the squared diagonal and the squared diagonal.
   */
  lemma {:induction false} RadiusBounds(local: Point, width: real, height: real)
    requires 0.0 <= local.x <= width && 0.0 <= local.y <= height
    ensures 16.0 * SquaredDistance(ChosenCorner(local, width, height), local)
            >= width * width + height * height
    ensures SquaredDistance(ChosenCorner(local, width, height), local)
            <= width * width + height * height
  {
    CornerGap(local.x, width);
    CornerGap(local.y, height);
  }

  /**
   * The circle at the end of the animation (EndScale times the radius)
   * reaches every corner of the box.
   */
  ghost predicate FinalCircleCoversBox(local: Point, width: real, height: real) {
    var r2 := SquaredDistance(ChosenCorner(local, width, height), local);
    forall corner :: corner in {Point(0.0, 0.0), Point(width, 0.0), Point(0.0, height), Point(width, height)}
      ==> SquaredDistance(corner, local) <= EndScale * EndScale * r2
  }

  /**
   * The chosen corner need not be the farthest one, and even the fully grown
   * circle may leave a corner uncovered: a click at (26, 26) in a 100 by 100
   * box measures to (0, 0).
   */
  lemma FinalCircleMayMissCorner()
    ensures exists local: Point :: 0.0 <= local.x <= 100.0 && 0.0 <= local.y <= 100.0
                                  && !FinalCircleCoversBox(local, 100.0, 100.0)
  {
    var local := Point(26.0, 26.0);
    assert ChosenCorner(local, 100.0, 100.0) == Point(0.0, 0.0);
    assert SquaredDistance(Point(100.0, 100.0), local)
           > EndScale * EndScale * SquaredDistance(Point(0.0, 0.0), local);
    assert !FinalCircleCoversBox(local, 100.0, 100.0);
  }

  /** A click at the centre of a 200 by 100 box measures to the corner (0, 0), at distance hypot(100, 50). */
  lemma CentreClick()
    ensures ChosenCorner(Point(100.0, 50.0), 200.0, 100.0) == Point(0.0, 0.0)
    ensures SquaredDistance(Point(0.0, 0.0), Point(100.0, 50.0)) == 100.0 * 100.0 + 50.0 * 50.0
  {
  }
}
