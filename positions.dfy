// The library's own position record and its prism helper
// (scripts/libraries/Types/Position.ts).
module Positions {

  /** A position record; a freshly constructed one has every field 0. */
  datatype Position = Position(x: int, y: int, z: int)

  /** `new Point()` in the library: the field initialisers give zeros. */
  function NewPosition(): (p: Position)
    ensures p.x == 0 && p.y == 0 && p.z == 0
  {
    Position(0, 0, 0)
  }

  /** Two opposite corners of a box. */
  datatype Prism = Prism(corner1: Position, corner2: Position)

  /** `aroundAndAbove(center, range)` called on `receiver`: the box reaching
      `range` blocks either way along x and z and `range` blocks upward from
      the centre. The receiver's own fields take no part in the result. */
  function AroundAndAbove(receiver: Position, center: Position, range: int): (b: Prism)
    ensures b.corner1 == Position(center.x - range, center.y, center.z - range)
    ensures b.corner2 == Position(center.x + range, center.y + range, center.z + range)
    ensures range >= 0 ==>
      b.corner2.x - b.corner1.x == 2 * range && b.corner2.z - b.corner1.z == 2 * range &&
      b.corner2.y - b.corner1.y == range
  {
    Prism(Position(center.x - range, center.y, center.z - range),
          Position(center.x + range, center.y + range, center.z + range))
  }

  /** Any two receivers give the same box. */
  lemma ReceiverIgnored(r1: Position, r2: Position, center: Position, range: int)
    ensures AroundAndAbove(r1, center, range) == AroundAndAbove(r2, center, range)
  {
  }
}
