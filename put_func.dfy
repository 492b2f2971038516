// The put callback's arguments (scripts/prefabs/PutFunc.ts): one call asks
// for a block type at a point given relative to an orientation.
module Puts {
  import opened Geometry
  import opened Blocks

  datatype Put = Put(orientation: Orientation, local: Point, material: Material)
}
