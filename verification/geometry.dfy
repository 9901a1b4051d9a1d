/** Plane geometry of the playfield.

    The game works on turtle coordinates given as floats. In exact
    arithmetic every position it can reach is a multiple of 0.5 units (steps
    are ten times a speed that is a multiple of 0.05, leaves and seeds sit at
    whole units), so the model keeps coordinates in hundredths of a unit and
    all arithmetic is exact on integers. A distance test
    `distance(a, b) < r` is decided by comparing squared distances, which is
    exact as well. */
module Geometry {

  /** Hundredths per turtle unit. */
  const Scale: int := 100

  datatype Point = Point(x: int, y: int)

  const Origin: Point := Point(0, 0)

  /** The four turtle headings the game ever sets: 0, 90, 180 and 270 degrees. */
  datatype Heading = Right | Up | Left | Down

  function Abs(n: int): (r: nat)
    ensures r == n || r == -n
  {
    if n < 0 then -n else n
  }

  /** The turtle heading in degrees, as `heading()` reports it. */
  function Degrees(h: Heading): (d: int)
    ensures 0 <= d < 360 && d % 90 == 0
  {
    match h
    case Right => 0
    case Up => 90
    case Left => 180
    case Down => 270
  }

  /** Distinct headings report distinct degrees, so comparing headings
      compares the turtle's `heading()` values. */
  lemma DegreesInjective(a: Heading, b: Heading)
    ensures Degrees(a) == Degrees(b) <==> a == b
  {
  }

  /** The heading pointing the other way. */
  function Opposite(h: Heading): (r: Heading)
    ensures Degrees(r) == (Degrees(h) + 180) % 360
  {
    match h
    case Right => Left
    case Up => Down
    case Left => Right
    case Down => Up
  }

  function SqDist(p: Point, q: Point): (d: nat)
  {
    (q.x - p.x) * (q.x - p.x) + (q.y - p.y) * (q.y - p.y)
  }

  /** `distance(p, q) < r` for a non-negative radius `r`. */
  predicate Within(p: Point, q: Point, r: nat)
  {
    SqDist(p, q) < r * r
  }

  lemma WithinSymmetric(p: Point, q: Point, r: nat)
    ensures Within(p, q, r) <==> Within(q, p, r)
  {
  }

  /** Cosine of a heading in whole degrees, for the four headings used. */
  function Cos(deg: int): int
  {
    if deg == 0 then 1 else if deg == 180 then -1 else 0
  }

  /** Sine of a heading in whole degrees, for the four headings used. */
  function Sin(deg: int): int
  {
    if deg == 90 then 1 else if deg == 270 then -1 else 0
  }

  /** The turtle's `forward(d)`: the point `d` away from `p` towards heading `h`. */
  function Forward(p: Point, h: Heading, d: int): (q: Point)
    ensures h == Right ==> q == Point(p.x + d, p.y)
    ensures h == Up ==> q == Point(p.x, p.y + d)
    ensures h == Left ==> q == Point(p.x - d, p.y)
    ensures h == Down ==> q == Point(p.x, p.y - d)
    ensures SqDist(p, q) == d * d
  {
    match h
    case Right => Point(p.x + d, p.y)
    case Up => Point(p.x, p.y + d)
    case Left => Point(p.x - d, p.y)
    case Down => Point(p.x, p.y - d)
  }

  /** `forward(d)` is the turtle's own computation: the position plus `d`
      times the unit orientation vector `(cos, sin)` of the heading. */
  lemma ForwardIsOrientationStep(p: Point, h: Heading, d: int)
    ensures Forward(p, h, d) == Point(p.x + d * Cos(Degrees(h)), p.y + d * Sin(Degrees(h)))
  {
  }

  /** Going forward and then the same distance the opposite way returns to
      the starting point. */
  lemma ForwardThenBack(p: Point, h: Heading, d: int)
    ensures Forward(Forward(p, h, d), Opposite(h), d) == p
  {
  }
}
