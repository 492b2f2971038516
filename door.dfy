// A single door block at the anchor (scripts/prefabs/Door.ts).
module Doors {
  import opened Errors
  import opened Geometry
  import opened Blocks
  import opened Puts
  import opened PrefabBase

  /** Doors are not validated: any orientation and door type is accepted. */
  datatype Door = Door(orientation: Orientation, doorType: Material)

  /** The constructor: an omitted orientation is `Orientation.Zero`. */
  function New(orientation: Option<Orientation>, doorType: Material): (d: Door)
    ensures orientation.None? ==> d.orientation == ZeroOrientation
    ensures orientation.Some? ==> d.orientation == orientation.value
    ensures d.doorType == doorType
  {
    Door(orientation.GetOr(ZeroOrientation), doorType)
  }

  /** `draw(put)`: exactly one put, at the local origin, and the door
      itself never throws. */
  function DrawSpec(d: Door): (r: Drawn)
    ensures |r.calls| == 1 && r.error.None?
    ensures r.calls[0].orientation == d.orientation && r.calls[0].local == Origin
    ensures r.calls[0].material == d.doorType
  {
    Drawn([Put(d.orientation, Origin, d.doorType)], None)
  }

  /** The child anchor is the door's own orientation. */
  function ChildOrientation(d: Door): (r: Orientation)
    ensures r.point == d.orientation.point && r.rotation == d.orientation.rotation
  {
    d.orientation
  }
}
