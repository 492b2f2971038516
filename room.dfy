// A room: a container whose builders append floors, walls, windows, doors,
// stairs, a ceiling and a roof placed on its footprint
// (scripts/prefabs/Room.ts).
module Rooms {
  import opened Errors
  import opened JsMath
  import opened Geometry
  import opened Blocks
  import opened Spans
  import opened PrefabBase
  import opened Prefabs
  import Walls
  import Floors
  import Doors
  import Windows
  import Staircases
  import Roofs
  import PrefabFactory

  datatype Side = Front | Back | LeftSide | RightSide
  datatype Corner = FrontLeft | FrontRight | BackLeft | BackRight

  /** Where a side's wall starts, relative to the room's anchor, how it is
      turned relative to the room, and how long it is. */
  datatype WallConfig = WallConfig(position: Point, rotation: int, length: int)

  datatype StairConfig = StairConfig(position: Point, rotation: int)

  /** The constructor's checks: width, then depth, then height. */
  function Validate(width: int, depth: int, height: int): (e: Option<Error>)
    ensures e.None? <==> width >= 1 && depth >= 1 && height >= 1
    ensures width < 1 ==> e == Some(RoomWidthTooSmall)
    ensures width >= 1 && depth < 1 ==> e == Some(RoomDepthTooSmall)
    ensures width >= 1 && depth >= 1 && height < 1 ==> e == Some(RoomHeightTooSmall)
  {
    if width < 1 then Some(RoomWidthTooSmall)
    else if depth < 1 then Some(RoomDepthTooSmall)
    else if height < 1 then Some(RoomHeightTooSmall)
    else None
  }

  method New(orientation: Orientation, width: int, depth: int, height: int) returns (r: Result<Prefab>)
    ensures r.Success? <==> Validate(width, depth, height).None?
    ensures r.Failure? ==> r.error == Validate(width, depth, height).value
    ensures r.Success? ==> fresh(r.value) && r.value.children == []
    ensures r.Success? ==> r.value.shape == RoomShape(RoomParams(orientation, width, depth, height))
  {
    var e := Validate(width, depth, height);
    if e.Some? {
      return Failure(e.value);
    }
    var room := new Prefab(RoomShape(RoomParams(orientation, width, depth, height)));
    return Success(room);
  }

  /** `getWallConfig(side)`. */
  function GetWallConfig(room: Room, side: Side): WallConfig
  {
    match side
    case Front => WallConfig(Point(0, 0, 0), 0, room.width - 1)
    case Back => WallConfig(Point(0, 0, room.depth - 1), 180, room.width - 1)
    case LeftSide => WallConfig(Point(0, 0, 0), 90, room.depth - 1)
    case RightSide => WallConfig(Point(room.width - 1, 0, 0), 270, room.depth - 1)
  }

  /** The walls start on corners of the footprint at floor level, run along
      the width (front, back) or the depth (left, right), and the four sides
      are turned by four different quarter turns. */
  lemma WallConfigShape(room: Room, side: Side)
    ensures var c := GetWallConfig(room, side);
      && c.position.y == 0
      && (c.position.x == 0 || c.position.x == room.width - 1)
      && (c.position.z == 0 || c.position.z == room.depth - 1)
      && ValidRotation(c.rotation)
      && c.length == (if side == Front || side == Back then room.width else room.depth) - 1
    ensures forall s :: s != side ==> GetWallConfig(room, s).rotation != GetWallConfig(room, side).rotation
  {
  }

  /** `getStairConfig(corner)`. */
  function GetStairConfig(room: Room, corner: Corner): StairConfig
  {
    match corner
    case FrontLeft => StairConfig(Point(0, 0, 0), 0)
    case FrontRight => StairConfig(Point(room.width - 1, 0, 0), 270)
    case BackLeft => StairConfig(Point(0, 0, room.depth - 1), 90)
    case BackRight => StairConfig(Point(room.width - 1, 0, room.depth - 1), 180)
  }

  /** Each stair position is the footprint corner it names, and the four
      corners are turned by four different quarter turns. */
  lemma StairConfigShape(room: Room, corner: Corner)
    ensures var c := GetStairConfig(room, corner);
      && c.position.y == 0
      && c.position.x == (if corner == FrontLeft || corner == BackLeft then 0 else room.width - 1)
      && c.position.z == (if corner == FrontLeft || corner == FrontRight then 0 else room.depth - 1)
      && ValidRotation(c.rotation)
    ensures forall k :: k != corner ==> GetStairConfig(room, k).rotation != GetStairConfig(room, corner).rotation
  {
  }

  /** A part placed on a side or corner: the room's anchor shifted by the
      unrotated offset, raised by y, turned by the room's rotation plus the
      part's, with JavaScript's `% 360`. */
  function PartOrientation(room: Room, position: Point, rotation: int, y: int): (o: Orientation)
    ensures o.point == Point(room.orientation.point.x + position.x, room.orientation.point.y + y, room.orientation.point.z + position.z)
    ensures o.rotation == Rem(room.orientation.rotation + rotation, 360)
  {
    Orientation(Point(room.orientation.point.x + position.x, room.orientation.point.y + y, room.orientation.point.z + position.z),
                Rem(room.orientation.rotation + rotation, 360))
  }

  /** A room turned by a quarter turn gives its parts a quarter turn again;
      any other rotation, a negative one included, gives them one that
      drawing rejects unless the sum happens to be a multiple of 90. */
  lemma PartRotationValid(roomRotation: int, partRotation: int)
    requires ValidRotation(roomRotation) && ValidRotation(partRotation)
    ensures ValidRotation(Rem(roomRotation + partRotation, 360))
  {
  }

  /** `% 360` keeps the sign: a room at -90 gives its front wall -90. */
  lemma NegativeRotationStays()
    ensures Rem(-90 + 0, 360) == -90 && !ValidRotation(Rem(-90 + 0, 360))
  {
  }

  // ---- builders ---------------------------------------------------------

  /** The child a floor placed yOffset above the room's base would be. */
  function FloorAt(room: Room, material: Material, yOffset: int): Node
  {
    var o := Orientation(Point(room.orientation.point.x, room.orientation.point.y + yOffset, room.orientation.point.z),
                         room.orientation.rotation);
    Node(FloorShape(Floors.FloorParams(o, material, room.width, room.depth)), [])
  }

  /** `addFloor(material, yOffset)`: one floor covering the footprint,
      yOffset above the room's base, with the room's rotation. */
  method AddFloor(r: Prefab, material: Material, yOffset: int := 0) returns (same: Prefab)
    requires r.shape.RoomShape?
    modifies r
    ensures same == r && r.children == old(r.children) + [FloorAt(r.shape.room, material, yOffset)]
  {
    var room := r.shape.room;
    var o := Orientation(Point(room.orientation.point.x, room.orientation.point.y + yOffset, room.orientation.point.z),
                         room.orientation.rotation);
    var floor := PrefabFactory.CreateFloor(o, material, room.width, room.depth);
    assert floor.Success?;
    r.children := r.children + [Node(FloorShape(floor.value), [])];
    return r;
  }

  /** `addCeiling(material)`: a floor at the room's height. */
  method AddCeiling(r: Prefab, material: Material) returns (same: Prefab)
    requires r.shape.RoomShape?
    modifies r
    ensures same == r && r.children == old(r.children) + [FloorAt(r.shape.room, material, r.shape.room.height)]
  {
    same := AddFloor(r, material, r.shape.room.height);
  }

  /** The layers startHeight .. startHeight + count - 1 of a side. */
  function WallStack(room: Room, side: Side, material: Material, startHeight: int, count: int): seq<Node>
    requires GetWallConfig(room, side).length >= 1
    decreases count
  {
    var c := GetWallConfig(room, side);
    if count <= 0 then []
    else
      var top := PartOrientation(room, c.position, c.rotation, startHeight + count - 1);
      WallStack(room, side, material, startHeight, count - 1) + [Node(WallShape(Walls.WallParams(top, material, c.length)), [])]
  }

  /** A stack of count walls, the k-th at height startHeight + k above the
      room's base, all starting at the side's offset and carrying its
      rotation and length. */
  lemma {:induction false} WallStackShape(room: Room, side: Side, material: Material, startHeight: int, count: int)
    requires GetWallConfig(room, side).length >= 1 && count >= 0
    ensures var c := GetWallConfig(room, side);
      var s := WallStack(room, side, material, startHeight, count);
      && |s| == count
      && forall k :: 0 <= k < count ==>
        s[k] == Node(WallShape(Walls.WallParams(PartOrientation(room, c.position, c.rotation, startHeight + k), material, c.length)), [])
    decreases count
  {
    if count > 0 {
      WallStackShape(room, side, material, startHeight, count - 1);
    }
  }

  /** What `buildWall` appends: nothing for a height of 0 or less,
      otherwise the stack of walls, or the wall constructor's error when the
      side has length 0 (width or depth 1). */
  function WallsFor(room: Room, side: Side, material: Material, startHeight: int, count: int): Result<seq<Node>>
  {
    if count <= 0 then Success([])
    else if GetWallConfig(room, side).length < 1 then Failure(WallTooShort)
    else Success(WallStack(room, side, material, startHeight, count))
  }

  /** `buildWall(side, material, startHeight, wallHeight)`: one wall per
      layer, wallHeight layers (the room's height when omitted) from
      startHeight up; a failing wall constructor throws at the first layer,
      before anything is added. */
  method BuildWall(r: Prefab, side: Side, material: Material, startHeight: int := 1, wallHeight: Option<int> := None)
    returns (result: Result<Prefab>)
    requires r.shape.RoomShape?
    modifies r
    ensures var w := WallsFor(r.shape.room, side, material, startHeight, wallHeight.GetOr(r.shape.room.height));
      if w.Success? then result == Success(r) && r.children == old(r.children) + w.value
      else result == Failure(w.error) && r.children == old(r.children)
  {
    var room := r.shape.room;
    var count := wallHeight.GetOr(room.height);
    var c := GetWallConfig(room, side);
    ghost var before := r.children;
    var y := startHeight;
    while y < startHeight + count
      invariant y == startHeight || (c.length >= 1 && startHeight < y <= startHeight + count)
      invariant c.length >= 1 ==> r.children == before + WallStack(room, side, material, startHeight, y - startHeight)
      invariant c.length < 1 ==> r.children == before
      decreases startHeight + count - y
    {
      var wall := PrefabFactory.CreateWall(PartOrientation(room, c.position, c.rotation, y), material, c.length);
      if wall.Failure? {
        return Failure(wall.error);
      }
      r.children := r.children + [Node(WallShape(wall.value), [])];
      y := y + 1;
    }
    return Success(r);
  }

  /** `addWindow(side, offsetAlong, offsetHeight, options)`: one window on
      the side's wall line, offsetHeight above the room's base. A window
      the constructor refuses adds nothing. */
  method AddWindow(r: Prefab, side: Side, offsetAlong: int, offsetHeight: int, options: Option<Windows.WindowOptions>)
    returns (result: Result<Prefab>)
    requires r.shape.RoomShape?
    modifies r
    ensures var c := GetWallConfig(r.shape.room, side);
      var w := PrefabFactory.CreateWindow(PartOrientation(r.shape.room, c.position, c.rotation, offsetHeight), offsetAlong, options);
      && (w.Failure? ==> result == Failure(w.error) && r.children == old(r.children))
      && (w.Success? ==> result == Success(r) && r.children == old(r.children) + [Node(WindowShape(w.value), [])])
  {
    var c := GetWallConfig(r.shape.room, side);
    var o := PartOrientation(r.shape.room, c.position, c.rotation, offsetHeight);
    var w := PrefabFactory.CreateWindow(o, offsetAlong, options);
    if w.Failure? {
      return Failure(w.error);
    }
    r.children := r.children + [Node(WindowShape(w.value), [])];
    return Success(r);
  }

  /** `buildDoor(side, offsetAlong, type)`: one door on the side's wall
      line, one block above the room's base. */
  method BuildDoor(r: Prefab, side: Side, offsetAlong: int, doorType: Material) returns (same: Prefab)
    requires r.shape.RoomShape?
    modifies r
    ensures var c := GetWallConfig(r.shape.room, side);
      same == r && r.children == old(r.children)
        + [Node(DoorShape(Doors.Door(PartOrientation(r.shape.room, c.position, c.rotation, 1), doorType)), [])]
  {
    var c := GetWallConfig(r.shape.room, side);
    var door := PrefabFactory.CreateDoor(PartOrientation(r.shape.room, c.position, c.rotation, 1), doorType, offsetAlong);
    r.children := r.children + [Node(DoorShape(door), [])];
    return r;
  }

  /** The child a roof of the given style on top of the room would be. */
  function RoofOn(room: Room, material: Material, style: string): Node
  {
    var o := Orientation(Point(room.orientation.point.x, room.orientation.point.y + room.height, room.orientation.point.z),
                         room.orientation.rotation);
    Node(RoofShape(Roofs.RoofParams(o, material, room.width, room.depth, style)), [])
  }

  /** `addRoof(material, style)`: one roof over the footprint at the
      room's height, with the room's own rotation (no `% 360`); the style
      defaults to flat. */
  method AddRoof(r: Prefab, material: Material, style: string := "flat") returns (same: Prefab)
    requires r.shape.RoomShape?
    modifies r
    ensures same == r && r.children == old(r.children) + [RoofOn(r.shape.room, material, style)]
  {
    var room := r.shape.room;
    var o := Orientation(Point(room.orientation.point.x, room.orientation.point.y + room.height, room.orientation.point.z),
                         room.orientation.rotation);
    var roof := PrefabFactory.CreateRoof(o, material, room.width, room.depth, style);
    assert roof.Success?;
    r.children := r.children + [Node(RoofShape(roof.value), [])];
    return r;
  }

  /** `addStairs(corner, material, steps)`: one flight of stairs in the
      corner, one block above the room's base. */
  method AddStairs(r: Prefab, corner: Corner, material: Material, steps: int) returns (result: Result<Prefab>)
    requires r.shape.RoomShape?
    modifies r
    ensures var c := GetStairConfig(r.shape.room, corner);
      var o := PartOrientation(r.shape.room, c.position, c.rotation, 1);
      && (steps < 1 ==> result == Failure(StairsTooFewSteps) && r.children == old(r.children))
      && (steps >= 1 ==>
            result == Success(r) && r.children == old(r.children) + [Node(StairsShape(Staircases.StairsParams(o, material, steps, 1)), [])])
  {
    var c := GetStairConfig(r.shape.room, corner);
    var o := PartOrientation(r.shape.room, c.position, c.rotation, 1);
    var stairs := PrefabFactory.CreateStairs(o, material, steps);
    if stairs.Failure? {
      return Failure(stairs.error);
    }
    r.children := r.children + [Node(StairsShape(stairs.value), [])];
    return Success(r);
  }

  /** Building a room builds its children in the order they were added,
      with nothing from the room itself. */
  lemma BuildsChildren(room: Room, children: seq<Node>, sink: Sink)
    ensures BuildTrace(Node(RoomShape(room), children), sink) == BuildAll(children, sink)
  {
    ContainerBuild(Node(RoomShape(room), children), sink);
  }
}
