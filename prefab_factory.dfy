// The factory prefabs use to create their children
// (scripts/prefabs/PrefabFactory.ts). Only `createWall` has a shown
// implementation; the other creators a room calls are modelled as the
// constructor of the prefab they name.
module PrefabFactory {
  import opened Errors
  import opened Geometry
  import opened Blocks
  import Walls
  import Floors
  import Doors
  import Windows
  import Staircases
  import Roofs

  /** `createWall(orientation, material, length, rotation)`: a wall with
      exactly the given orientation, material and length. The rotation
      argument is not looked at, and a length below 1 surfaces as the wall
      constructor's error. */
  function CreateWall(orientation: Orientation, material: Material, length: int, rotation: int := 0): (r: Result<Walls.Wall>)
    ensures r.Success? <==> length >= 1
    ensures r.Success? ==> r.value == Walls.WallParams(orientation, material, length)
    ensures r.Failure? ==> r.error == WallTooShort
  {
    Walls.New(orientation, material, length)
  }

  /** A factory-made wall does not depend on the rotation it was given. */
  lemma CreateWallIgnoresRotation(orientation: Orientation, material: Material, length: int, r1: int, r2: int)
    ensures CreateWall(orientation, material, length, r1) == CreateWall(orientation, material, length, r2)
  {
  }

  function CreateFloor(orientation: Orientation, material: Material, width: int, depth: int): (r: Result<Floors.Floor>)
    ensures r.Success? <==> width >= 1 && depth >= 1
    ensures r.Success? ==> r.value == Floors.FloorParams(orientation, material, width, depth)
  {
    Floors.New(orientation, material, width, depth)
  }

  /** The offset along the wall has no effect: a window has no such field. */
  function CreateWindow(orientation: Orientation, offsetAlong: int, options: Option<Windows.WindowOptions>): (r: Result<Windows.Window>)
    ensures r.Success? ==> r.value.orientation == orientation
    ensures options.None? ==> r == Success(Windows.WindowParams(orientation, Windows.Size(2, 2), GlassPane))
    ensures options.Some? ==>
      var size := options.value.size.GetOr(Windows.Size(2, 2));
      && (r.Success? <==> size.width >= 1 && size.height >= 1)
      && (r.Success? ==> r.value == Windows.WindowParams(orientation, size, options.value.blockType.GetOr(GlassPane)))
  {
    Windows.New(orientation, options.GetOr(Windows.NoOptions))
  }

  function CreateDoor(orientation: Orientation, doorType: Material, offsetAlong: int): (d: Doors.Door)
    ensures d == Doors.Door(orientation, doorType)
  {
    Doors.New(Some(orientation), doorType)
  }

  /** Stairs made by the factory are one block wide. */
  function CreateStairs(orientation: Orientation, material: Material, steps: int): (r: Result<Staircases.Stairs>)
    ensures r.Success? <==> steps >= 1
    ensures r.Success? ==> r.value == Staircases.StairsParams(orientation, material, steps, 1)
  {
    Staircases.New(orientation, material, steps, None)
  }

  function CreateRoof(orientation: Orientation, material: Material, width: int, depth: int, style: string): (r: Result<Roofs.Roof>)
    ensures r.Success? <==> width >= 1 && depth >= 1
    ensures r.Success? ==> r.value == Roofs.RoofParams(orientation, material, width, depth, style)
  {
    Roofs.New(orientation, material, width, depth, Some(style))
  }
}
