// The JSON house description (scripts/config/HouseConfig.ts). Fields that
// JSON may leave out are options; the side and corner names are the four
// values the description allows.
module HouseConfigs {
  import opened Errors
  import Rooms

  datatype Position = Position(x: int, y: int, z: int)

  datatype WindowConfig = WindowConfig(
    side: Rooms.Side, offsetAlong: int, offsetHeight: int,
    width: Option<int>, height: Option<int>, material: Option<string>)

  datatype DoorConfig = DoorConfig(side: Rooms.Side, offsetAlong: int, material: string)

  datatype WallConfig = WallConfig(side: Rooms.Side, material: string, startHeight: Option<int>, wallHeight: Option<int>)

  datatype StairsConfig = StairsConfig(corner: Rooms.Corner, material: string, steps: int, width: Option<int>)

  /** Used for both the floor and the ceiling. */
  datatype FloorConfig = FloorConfig(material: string, yOffset: Option<int>)

  datatype RoofConfig = RoofConfig(material: string, style: Option<string>)

  datatype ObjectConfig = ObjectConfig(objectType: string, position: Position, rotation: Option<int>, description: Option<string>)

  datatype RoomConnection = RoomConnection(fromRoomIndex: int, toRoomIndex: int, doorMaterial: Option<string>, description: Option<string>)

  datatype RoomConfig = RoomConfig(
    position: Position, rotation: int, width: int, depth: int, height: int,
    floor: Option<FloorConfig>, ceiling: Option<FloorConfig>,
    walls: Option<seq<WallConfig>>, windows: Option<seq<WindowConfig>>,
    doors: Option<seq<DoorConfig>>, stairs: Option<seq<StairsConfig>>,
    roof: Option<RoofConfig>, objects: Option<seq<ObjectConfig>>,
    name: Option<string>)

  datatype HouseConfig = HouseConfig(
    name: Option<string>, description: Option<string>,
    rooms: seq<RoomConfig>, connections: Option<seq<RoomConnection>>)
}
