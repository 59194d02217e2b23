/** Plane geometry of pie-chart labels.

    Coordinates are those of the pie's axes: the pie has radius 1 and is centred
    at the origin. Angles are in degrees, counter-clockwise from the positive
    x-axis. The cosine and sine of a wedge's mid-angle are carried by the wedge
    itself: the scripts take them from floating-point trigonometry, which this
    model does not reproduce. */
module Geometry {

  datatype Point = Point(x: real, y: real)

  const Origin: Point := Point(0.0, 0.0)

  function Add(p: Point, q: Point): (r: Point)
    ensures r.x - q.x == p.x && r.y - q.y == p.y
  {
    Point(p.x + q.x, p.y + q.y)
  }

  function Abs(r: real): (a: real)
    ensures a >= 0.0 && (a == r || a == -r)
  {
    if r < 0.0 then -r else r
  }

  /** A wedge of a pie: it spans [theta1, theta2) degrees, and (cosMid, sinMid)
      is the unit direction of its mid-angle (theta1 + theta2) / 2. */
  datatype Wedge = Wedge(theta1: real, theta2: real, cosMid: real, sinMid: real)

  /** The angular width of a wedge, in degrees. */
  function Span(w: Wedge): real
  {
    w.theta2 - w.theta1
  }

  /** The mid-angle the direction (cosMid, sinMid) belongs to. */
  function MidAngle(w: Wedge): real
  {
    (w.theta2 + w.theta1) / 2.0
  }

  /** The direction carried by the wedge has length 1. */
  predicate UnitDirection(w: Wedge)
  {
    w.cosMid * w.cosMid + w.sinMid * w.sinMid == 1.0
  }

  /** calculate_text_position and calculate_external_text_position: the point
      at radius `distance` on the wedge's mid-angle. */
  function Polar(w: Wedge, distance: real): (p: Point)
    // the point lies on the line of the mid-angle ...
    ensures p.x * w.sinMid == p.y * w.cosMid
    // ... at signed distance `distance` along it, that is at radius |distance|
    ensures UnitDirection(w) ==> p.x * w.cosMid + p.y * w.sinMid == distance
    ensures UnitDirection(w) ==> p.x * p.x + p.y * p.y == distance * distance
  {
    var p := Point(distance * w.cosMid, distance * w.sinMid);
    assert p.x * p.x + p.y * p.y == distance * distance * (w.cosMid * w.cosMid + w.sinMid * w.sinMid);
    p
  }
}
