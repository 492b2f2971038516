// Points, orientations and quarter turns (scripts/geometry/Point.ts).
module Geometry {
  import opened Errors

  /** An integer world or local coordinate; a value, never shared mutably. */
  datatype Point = Point(x: int, y: int, z: int) {
    function Plus(o: Point): Point
    {
      Point(x + o.x, y + o.y, z + o.z)
    }
    function Scale(k: int): Point
    {
      Point(k * x, k * y, k * z)
    }
    function Neg(): Point
    {
      Point(-x, -y, -z)
    }
  }

  /** `Point.Zero`, and what the constructor builds with no arguments. */
  const Origin := Point(0, 0, 0)

  /** A Point whose omitted coordinates default to 0. */
  function NewPoint(x: int := 0, y: int := 0, z: int := 0): (p: Point)
    ensures p.x == x && p.y == y && p.z == z
  {
    Point(x, y, z)
  }

  /** An anchor point and a rotation in degrees. The rotation is a plain
      number: configuration files and sums such as `(a + b) % 360` can carry
      values outside 0, 90, 180, 270, and each consumer decides what to do
      with them. */
  datatype Orientation = Orientation(point: Point, rotation: int)

  /** `Orientation.Zero`. */
  const ZeroOrientation := Orientation(Origin, 0)

  /** The four rotations the engine understands. */
  datatype Quarter = Q0 | Q90 | Q180 | Q270 {
    function Degrees(): int
    {
      match this
      case Q0 => 0
      case Q90 => 90
      case Q180 => 180
      case Q270 => 270
    }
    /** A further quarter turn. */
    function Next(): Quarter
    {
      match this
      case Q0 => Q90
      case Q90 => Q180
      case Q180 => Q270
      case Q270 => Q0
    }
  }

  predicate ValidRotation(r: int)
  {
    r == 0 || r == 90 || r == 180 || r == 270
  }

  function QuarterOf(r: int): (q: Option<Quarter>)
    ensures q.Some? <==> ValidRotation(r)
    ensures q.Some? ==> q.value.Degrees() == r
  {
    if r == 0 then Some(Q0)
    else if r == 90 then Some(Q90)
    else if r == 180 then Some(Q180)
    else if r == 270 then Some(Q270)
    else None
  }

  const Up := Point(0, 1, 0)

  /** The unit step along a prefab's local length axis: +x at 0 degrees,
      +z at 90, -x at 180, -z at 270. */
  function Forward(q: Quarter): (f: Point)
    ensures f.y == 0 && (f.x == 0) != (f.z == 0)
  {
    match q
    case Q0 => Point(1, 0, 0)
    case Q90 => Point(0, 0, 1)
    case Q180 => Point(-1, 0, 0)
    case Q270 => Point(0, 0, -1)
  }

  /** Two quarter turns reverse the length axis. */
  lemma ForwardHalfTurn(q: Quarter)
    ensures Forward(q.Next().Next()) == Forward(q).Neg()
  {
  }

  /** The box around and above a point. */
  datatype Prism = Prism(corner1: Point, corner2: Point)

  /** `Point.aroundAndAbove(rangeXZ, rangeY)`: the box reaching rangeXZ
      blocks either way along x and z and rangeY blocks upward. */
  function AroundAndAbove(p: Point, rangeXZ: int, rangeY: int): (b: Prism)
    ensures b.corner1.y == p.y && b.corner2.y - b.corner1.y == rangeY
    ensures b.corner1.x + rangeXZ == p.x && b.corner2.x - rangeXZ == p.x
    ensures b.corner1.z + rangeXZ == p.z && b.corner2.z - rangeXZ == p.z
    ensures rangeXZ >= 0 && rangeY >= 0 ==>
      b.corner1.x <= p.x <= b.corner2.x && b.corner1.z <= p.z <= b.corner2.z &&
      b.corner1.y == p.y <= b.corner2.y
  {
    Prism(Point(p.x - rangeXZ, p.y, p.z - rangeXZ),
          Point(p.x + rangeXZ, p.y + rangeY, p.z + rangeXZ))
  }
}
