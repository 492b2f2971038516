// Building a house from its JSON description
// (scripts/config/JsonHouseBuilder.ts): each room becomes a Room prefab
// whose parts are appended in a fixed order, free objects are written
// straight into the buffer, and the room is then built into the buffer
// through `putOffset`.
module JsonHouse {
  import opened Errors
  import opened Geometry
  import opened Blocks
  import opened Puts
  import opened PrefabBase
  import opened Prefabs
  import opened BlockBuffers
  import opened HouseConfigs
  import Rooms
  import Windows
  import Doors
  import Staircases
  import PrefabFactory

  /** The name table of the block-type enumeration: which names resolve,
      and to what. */
  type Names = map<string, Material>

  // ---- name lookup and JavaScript truthiness -----------------------------

  /** `parseBlockType(name)`. */
  function ParseBlockType(names: Names, name: string): (r: Result<Material>)
    ensures r.Success? <==> name in names
    ensures r.Success? ==> r.value == names[name]
    ensures r.Failure? ==> r.error == UnknownBlockType(name)
  {
    if name in names then Success(names[name]) else Failure(UnknownBlockType(name))
  }

  /** `parseDoorType(name)`: looked up in the same block-type table, only
      the message differs. */
  function ParseDoorType(names: Names, name: string): (r: Result<Material>)
    ensures r.Success? <==> ParseBlockType(names, name).Success?
    ensures r.Success? ==> r == ParseBlockType(names, name)
    ensures r.Failure? ==> r.error == UnknownDoorType(name)
  {
    if name in names then Success(names[name]) else Failure(UnknownDoorType(name))
  }

  /** A present number other than 0 (NaN does not arise from integers). */
  predicate TruthyNumber(n: Option<int>)
  {
    n.Some? && n.value != 0
  }

  /** A present, non-empty string. */
  predicate TruthyString(s: Option<string>)
  {
    s.Some? && s.value != ""
  }

  /** `roof.style || "flat"`. */
  function RoofStyle(style: Option<string>): (s: string)
    ensures s != ""
    ensures TruthyString(style) ==> s == style.value
    ensures !TruthyString(style) ==> s == "flat"
  {
    if TruthyString(style) then style.value else "flat"
  }

  // ---- the parts of a room, as values -----------------------------------

  /** Two steps one after the other: the first failure, or both results in
      order. */
  function Chain(a: Result<seq<Node>>, b: Result<seq<Node>>): Result<seq<Node>>
  {
    if a.Failure? then a
    else if b.Failure? then b
    else Success(a.value + b.value)
  }

  /** A step per item of a list, in list order, stopping at the first
      failure. */
  function Each<T>(items: seq<T>, part: T -> Result<seq<Node>>): Result<seq<Node>>
    decreases |items|
  {
    if items == [] then Success([])
    else Chain(Each(items[..|items| - 1], part), part(items[|items| - 1]))
  }

  /** One more successful item extends what the items before it made. */
  lemma EachSnoc<T>(before: seq<Node>, items: seq<T>, part: T -> Result<seq<Node>>, i: int)
    requires 0 <= i < |items| && Each(items[..i], part).Success? && part(items[i]).Success?
    ensures Each(items[..i + 1], part).Success?
    ensures before + Each(items[..i + 1], part).value == before + Each(items[..i], part).value + part(items[i]).value
  {
    assert items[..i + 1][..i] == items[..i];
    var a, b := Each(items[..i], part).value, part(items[i]).value;
    assert Each(items[..i + 1], part).value == a + b;
    assert before + (a + b) == before + a + b;
  }

  /** `buildWindow`: the size is set only when width and height are both
      truthy, the block type only when a material name is given. */
  function WindowOptionsFor(names: Names, w: WindowConfig): (r: Result<Windows.WindowOptions>)
    ensures r.Failure? <==> TruthyString(w.material) && w.material.value !in names
    ensures r.Failure? ==> r.error == UnknownBlockType(w.material.value)
    ensures r.Success? ==> (r.value.size.Some? <==> TruthyNumber(w.width) && TruthyNumber(w.height))
    ensures r.Success? && r.value.size.Some? ==> r.value.size.value == Windows.Size(w.width.value, w.height.value)
    ensures r.Success? ==> (r.value.blockType.Some? <==> TruthyString(w.material))
    ensures r.Success? && r.value.blockType.Some? ==> r.value.blockType.value == names[w.material.value]
  {
    var size := if TruthyNumber(w.width) && TruthyNumber(w.height) then Some(Windows.Size(w.width.value, w.height.value)) else None;
    if !TruthyString(w.material) then Success(Windows.WindowOptions(size, None))
    else match ParseBlockType(names, w.material.value)
      case Failure(e) => Failure(e)
      case Success(m) => Success(Windows.WindowOptions(size, Some(m)))
  }

  function FloorPart(names: Names, room: Room, f: FloorConfig): Result<seq<Node>>
  {
    match ParseBlockType(names, f.material)
    case Failure(e) => Failure(e)
    case Success(m) => Success([Rooms.FloorAt(room, m, f.yOffset.GetOr(0))])
  }

  /** The ceiling ignores its own yOffset: it always sits at the room's
      height. */
  function CeilingPart(names: Names, room: Room, f: FloorConfig): Result<seq<Node>>
  {
    match ParseBlockType(names, f.material)
    case Failure(e) => Failure(e)
    case Success(m) => Success([Rooms.FloorAt(room, m, room.height)])
  }

  function WallPart(names: Names, room: Room, w: WallConfig): Result<seq<Node>>
  {
    match ParseBlockType(names, w.material)
    case Failure(e) => Failure(e)
    case Success(m) => Rooms.WallsFor(room, w.side, m, w.startHeight.GetOr(1), w.wallHeight.GetOr(room.height))
  }

  function WindowPart(names: Names, room: Room, w: WindowConfig): Result<seq<Node>>
  {
    match WindowOptionsFor(names, w)
    case Failure(e) => Failure(e)
    case Success(options) =>
      var c := Rooms.GetWallConfig(room, w.side);
      match PrefabFactory.CreateWindow(Rooms.PartOrientation(room, c.position, c.rotation, w.offsetHeight), w.offsetAlong, Some(options))
      case Failure(e) => Failure(e)
      case Success(win) => Success([Node(WindowShape(win), [])])
  }

  function DoorPart(names: Names, room: Room, d: DoorConfig): Result<seq<Node>>
  {
    match ParseDoorType(names, d.material)
    case Failure(e) => Failure(e)
    case Success(m) =>
      var c := Rooms.GetWallConfig(room, d.side);
      Success([Node(DoorShape(Doors.Door(Rooms.PartOrientation(room, c.position, c.rotation, 1), m)), [])])
  }

  /** The configured stairs width is not passed on: every flight is one
      block wide. */
  function StairsPart(names: Names, room: Room, s: StairsConfig): Result<seq<Node>>
  {
    match ParseBlockType(names, s.material)
    case Failure(e) => Failure(e)
    case Success(m) =>
      var c := Rooms.GetStairConfig(room, s.corner);
      var o := Rooms.PartOrientation(room, c.position, c.rotation, 1);
      if s.steps < 1 then Failure(StairsTooFewSteps)
      else Success([Node(StairsShape(Staircases.StairsParams(o, m, s.steps, 1)), [])])
  }

  function RoofPart(names: Names, room: Room, r: RoofConfig): Result<seq<Node>>
  {
    match ParseBlockType(names, r.material)
    case Failure(e) => Failure(e)
    case Success(m) => Success([Rooms.RoofOn(room, m, RoofStyle(r.style))])
  }

  /** The kinds of part `buildRoom` appends, in the order it appends
      them. */
  datatype PartKind = FloorKind | WallsKind | WindowsKind | DoorsKind | StairsKind | CeilingKind | RoofKind

  const PartOrder := [FloorKind, WallsKind, WindowsKind, DoorsKind, StairsKind, CeilingKind, RoofKind]

  /** What one kind contributes: nothing when the configuration leaves it
      out. */
  function PartsOf(names: Names, room: Room, rc: RoomConfig, kind: PartKind): Result<seq<Node>>
  {
    match kind
    case FloorKind => if rc.floor.Some? then FloorPart(names, room, rc.floor.value) else Success([])
    case WallsKind => Each(rc.walls.GetOr([]), w => WallPart(names, room, w))
    case WindowsKind => Each(rc.windows.GetOr([]), w => WindowPart(names, room, w))
    case DoorsKind => Each(rc.doors.GetOr([]), d => DoorPart(names, room, d))
    case StairsKind => Each(rc.stairs.GetOr([]), s => StairsPart(names, room, s))
    case CeilingKind => if rc.ceiling.Some? then CeilingPart(names, room, rc.ceiling.value) else Success([])
    case RoofKind => if rc.roof.Some? then RoofPart(names, room, rc.roof.value) else Success([])
  }

  /** The room's children when every part is accepted, or the first
      refusal. */
  function RoomParts(names: Names, room: Room, rc: RoomConfig): Result<seq<Node>>
  {
    Each(PartOrder, PartFn(names, room, rc))
  }

  function PartFn(names: Names, room: Room, rc: RoomConfig): PartKind -> Result<seq<Node>>
  {
    k => PartsOf(names, room, rc, k)
  }

  /** The seven steps of `RoomParts`, one after the other. */
  lemma RoomPartsUnrolled(names: Names, room: Room, rc: RoomConfig)
    ensures var p := PartFn(names, room, rc);
      RoomParts(names, room, rc)
        == Chain(Chain(Chain(Chain(Chain(Chain(p(FloorKind), p(WallsKind)), p(WindowsKind)), p(DoorsKind)),
                             p(StairsKind)), p(CeilingKind)), p(RoofKind))
  {
    var p := PartFn(names, room, rc);
    var l6 := [FloorKind, WallsKind, WindowsKind, DoorsKind, StairsKind, CeilingKind];
    var l5 := [FloorKind, WallsKind, WindowsKind, DoorsKind, StairsKind];
    var l4 := [FloorKind, WallsKind, WindowsKind, DoorsKind];
    var l3 := [FloorKind, WallsKind, WindowsKind];
    var l2 := [FloorKind, WallsKind];
    var l1 := [FloorKind];
    assert Each(PartOrder, p) == Chain(Each(l6, p), p(RoofKind)) by { assert PartOrder[..6] == l6; }
    assert Each(l6, p) == Chain(Each(l5, p), p(CeilingKind)) by { assert l6[..5] == l5; }
    assert Each(l5, p) == Chain(Each(l4, p), p(StairsKind)) by { assert l5[..4] == l4; }
    assert Each(l4, p) == Chain(Each(l3, p), p(DoorsKind)) by { assert l4[..3] == l3; }
    assert Each(l3, p) == Chain(Each(l2, p), p(WindowsKind)) by { assert l3[..2] == l2; }
    assert Each(l2, p) == Chain(Each(l1, p), p(WallsKind)) by { assert l2[..1] == l1; }
    assert Each(l1, p) == Chain(Each([], p), p(FloorKind)) by { assert l1[..0] == []; }
    ChainAfterNothing(p(FloorKind));
  }

  lemma ChainAfterNothing(b: Result<seq<Node>>)
    ensures Chain(Success([]), b) == b
  {
    if b.Success? {
      assert [] + b.value == b.value;
    }
  }

  /** The children come in the fixed order floor, walls, windows, doors,
      stairs, ceiling, roof, and every kind was accepted. */
  lemma PartsInOrder(names: Names, room: Room, rc: RoomConfig)
    requires RoomParts(names, room, rc).Success?
    ensures var p := PartFn(names, room, rc);
      && p(FloorKind).Success? && p(WallsKind).Success? && p(WindowsKind).Success? && p(DoorsKind).Success?
      && p(StairsKind).Success? && p(CeilingKind).Success? && p(RoofKind).Success?
      && RoomParts(names, room, rc).value
           == p(FloorKind).value + p(WallsKind).value + p(WindowsKind).value + p(DoorsKind).value
              + p(StairsKind).value + p(CeilingKind).value + p(RoofKind).value
  {
    RoomPartsUnrolled(names, room, rc);
  }

  // ---- objects and whole rooms on a buffer state ------------------------

  /** `placeObject`: the object's position is both the local point and the
      anchor, with rotation `rotation || 0`. */
  function ObjectPut(obj: ObjectConfig, m: Material): (c: Put)
    ensures c.local == c.orientation.point
    ensures c.local == Point(obj.position.x, obj.position.y, obj.position.z)
  {
    var p := Point(obj.position.x, obj.position.y, obj.position.z);
    Put(Orientation(p, obj.rotation.GetOr(0)), p, m)
  }

  function PlaceObject(names: Names, s: BufferState, obj: ObjectConfig): (BufferState, Option<Error>)
  {
    match ParseBlockType(names, obj.objectType)
    case Failure(e) => (s, Some(e))
    case Success(m) => OffsetStore(s, ObjectPut(obj, m))
  }

  function PlaceObjects(names: Names, s: BufferState, objs: seq<ObjectConfig>): (BufferState, Option<Error>)
    decreases |objs|
  {
    if objs == [] then (s, None)
    else
      var before := PlaceObjects(names, s, objs[..|objs| - 1]);
      if before.1.Some? then before else PlaceObject(names, before.0, objs[|objs| - 1])
  }

  function RoomOrientation(rc: RoomConfig): Orientation
  {
    Orientation(Point(rc.position.x, rc.position.y, rc.position.z), rc.rotation)
  }

  /** `buildRoom` on a buffer state: the room is constructed, its parts are
      appended, the objects are written, then the room is built through
      `putOffset`. The first exception ends the room with what has been
      written so far. */
  function RoomRun(names: Names, s: BufferState, rc: RoomConfig): (BufferState, Option<Error>)
  {
    match Rooms.Validate(rc.width, rc.depth, rc.height)
    case Some(e) => (s, Some(e))
    case None =>
      var room: Room := RoomParams(RoomOrientation(rc), rc.width, rc.depth, rc.height);
      match RoomParts(names, room, rc)
      case Failure(e) => (s, Some(e))
      case Success(parts) =>
        var placed := PlaceObjects(names, s, rc.objects.GetOr([]));
        if placed.1.Some? then placed
        else
          var t := BuildTrace(Node(RoomShape(room), parts), OffsetError);
          (ApplyAll(placed.0, t.puts), t.error)
  }

  /** `build(config)` on a buffer state: the rooms in configuration order,
      up to the first exception. */
  function HouseRun(names: Names, s: BufferState, rooms: seq<RoomConfig>): (BufferState, Option<Error>)
    decreases |rooms|
  {
    if rooms == [] then (s, None)
    else
      var before := HouseRun(names, s, rooms[..|rooms| - 1]);
      if before.1.Some? then before else RoomRun(names, before.0, rooms[|rooms| - 1])
  }

  // ---- properties ---------------------------------------------------------

  /** Rooms are processed in order: the house run of a + b is the run of a
      followed, if it ends normally, by the run of b. */
  lemma {:induction false} HouseRunAppend(names: Names, s: BufferState, a: seq<RoomConfig>, b: seq<RoomConfig>)
    ensures var first := HouseRun(names, s, a);
      HouseRun(names, s, a + b) == if first.1.Some? then first else HouseRun(names, first.0, b)
    decreases |b|
  {
    if b == [] {
      assert a + b == a;
    } else {
      var ab := a + b;
      assert ab[..|ab| - 1] == a + b[..|b| - 1];
      assert ab[|ab| - 1] == b[|b| - 1];
      HouseRunAppend(names, s, a, b[..|b| - 1]);
    }
  }

  /** A run whose rooms all fit a single room's run: one room's house run is
      that room's run. */
  lemma OneRoom(names: Names, s: BufferState, rc: RoomConfig)
    ensures HouseRun(names, s, [rc]) == RoomRun(names, s, rc)
  {
    assert [rc][..0] == [];
  }

  /** At rotation 0 an object lands at twice its position. */
  lemma ObjectAtTwicePosition(names: Names, obj: ObjectConfig)
    requires obj.objectType in names
    requires obj.rotation.None? || obj.rotation == Some(0)
    ensures var p := Point(obj.position.x, obj.position.y, obj.position.z);
      OffsetTarget(ObjectPut(obj, names[obj.objectType]).local, ObjectPut(obj, names[obj.objectType]).orientation)
        == Success(p.Scale(2))
  {
  }

  /** An object with an unknown block name, or with a rotation that is not
      a quarter turn, throws and writes nothing. */
  lemma ObjectRefused(names: Names, s: BufferState, obj: ObjectConfig)
    ensures obj.objectType !in names ==> PlaceObject(names, s, obj) == (s, Some(UnknownBlockType(obj.objectType)))
    ensures obj.objectType in names && !ValidRotation(obj.rotation.GetOr(0)) ==>
      PlaceObject(names, s, obj) == (s, Some(InvalidRotation(obj.rotation.GetOr(0))))
  {
  }

  /** Any later call landing on a cell decides its block: in particular a
      room block at an object's cell overwrites the object. */
  lemma LastPutOnCellWins(s: BufferState, calls: seq<Put>, k: nat, p: Point)
    requires k < |calls|
    requires OffsetTarget(calls[k].local, calls[k].orientation) == Success(p)
    requires forall j :: k < j < |calls| ==> OffsetTarget(calls[j].local, calls[j].orientation) != Success(p)
    ensures p in ApplyAll(s, calls).cells && ApplyAll(s, calls).cells[p] == Block(calls[k].material)
  {
    var a := calls[..k];
    var b := calls[k + 1..];
    assert calls == a + [calls[k]] + b;
    forall j | 0 <= j < |b|
      ensures OffsetTarget(b[j].local, b[j].orientation) != OffsetTarget(calls[k].local, calls[k].orientation)
    {
      assert b[j] == calls[k + 1 + j];
    }
    ApplyAllLastWins(s, a, calls[k], b);
  }

  /** A room that ends normally leaves the block of its last put on each
      cell it reaches, whatever objects were written there before. */
  lemma RoomBlocksWin(names: Names, s: BufferState, rc: RoomConfig, k: nat, p: Point)
    requires Rooms.Validate(rc.width, rc.depth, rc.height).None?
    requires var room: Room := RoomParams(RoomOrientation(rc), rc.width, rc.depth, rc.height);
      RoomParts(names, room, rc).Success?
    requires PlaceObjects(names, s, rc.objects.GetOr([])).1.None?
    requires var room: Room := RoomParams(RoomOrientation(rc), rc.width, rc.depth, rc.height);
      var t := BuildTrace(Node(RoomShape(room), RoomParts(names, room, rc).value), OffsetError);
      && k < |t.puts|
      && OffsetTarget(t.puts[k].local, t.puts[k].orientation) == Success(p)
      && forall j :: k < j < |t.puts| ==> OffsetTarget(t.puts[j].local, t.puts[j].orientation) != Success(p)
    ensures var room: Room := RoomParams(RoomOrientation(rc), rc.width, rc.depth, rc.height);
      var t := BuildTrace(Node(RoomShape(room), RoomParts(names, room, rc).value), OffsetError);
      p in RoomRun(names, s, rc).0.cells && RoomRun(names, s, rc).0.cells[p] == Block(t.puts[k].material)
  {
    var room: Room := RoomParams(RoomOrientation(rc), rc.width, rc.depth, rc.height);
    var t := BuildTrace(Node(RoomShape(room), RoomParts(names, room, rc).value), OffsetError);
    var placed := PlaceObjects(names, s, rc.objects.GetOr([]));
    assert RoomRun(names, s, rc).0 == ApplyAll(placed.0, t.puts);
    LastPutOnCellWins(placed.0, t.puts, k, p);
  }

  /** A room with valid dimensions and nothing configured builds nothing. */
  lemma BareRoomWritesNothing(names: Names, s: BufferState, rc: RoomConfig)
    requires Rooms.Validate(rc.width, rc.depth, rc.height).None?
    requires rc.floor.None? && rc.ceiling.None? && rc.roof.None?
    requires rc.walls.None? && rc.windows.None? && rc.doors.None? && rc.stairs.None? && rc.objects.None?
    ensures RoomRun(names, s, rc) == (s, None)
  {
    var room: Room := RoomParams(RoomOrientation(rc), rc.width, rc.depth, rc.height);
    RoomPartsUnrolled(names, room, rc);
    var p := PartFn(names, room, rc);
    assert p(FloorKind) == p(WallsKind) == p(WindowsKind) == p(DoorsKind) == Success([]);
    assert p(StairsKind) == p(CeilingKind) == p(RoofKind) == Success([]);
    var none: seq<Node> := [];
    assert none + none == none;
    assert RoomParts(names, room, rc) == Success([]);
    Rooms.BuildsChildren(room, [], OffsetError);
  }

  /** An unknown floor material stops the room before anything is
      written. */
  lemma UnknownFloorMaterial(names: Names, s: BufferState, rc: RoomConfig)
    requires Rooms.Validate(rc.width, rc.depth, rc.height).None?
    requires rc.floor.Some? && rc.floor.value.material !in names
    ensures RoomRun(names, s, rc) == (s, Some(UnknownBlockType(rc.floor.value.material)))
  {
    RoomPartsUnrolled(names, RoomParams(RoomOrientation(rc), rc.width, rc.depth, rc.height), rc);
  }

  /** The buffer's own reaction to a call does not depend on what it holds,
      so making the calls one by one against the live buffer ends in the
      state and with the exception that delivering them to `OffsetError`
      and then writing the calls made predicts. */
  lemma {:induction false} OffsetRunMatches(s: BufferState, calls: seq<Put>)
    ensures var t := Deliver(calls, OffsetError);
      OffsetRun(s, calls) == (ApplyAll(s, t.puts), t.error)
    decreases |calls|
  {
    if calls != [] {
      var first := OffsetStore(s, calls[0]);
      assert first.1 == OffsetError(calls[0]);
      if first.1.None? {
        OffsetRunMatches(first.0, calls[1..]);
        var rest := Deliver(calls[1..], OffsetError);
        assert Deliver(calls, OffsetError).puts == [calls[0]] + rest.puts;
        assert ([calls[0]] + rest.puts)[1..] == rest.puts;
      } else {
        assert Deliver(calls, OffsetError).puts == [calls[0]];
        assert [calls[0]][1..] == [];
      }
    }
  }

  // ---- the builder ----------------------------------------------------------

  class JsonHouseBuilder {
    /** The name table used to resolve block and door names. */
    const names: Names
    var blockBuffer: BlockBuffer

    constructor (names: Names)
      ensures this.names == names
      ensures fresh(blockBuffer) && blockBuffer.Valid() && blockBuffer.State() == Empty
    {
      this.names := names;
      blockBuffer := new BlockBuffer();
    }

    /** `build(config)`: a fresh buffer, then every room in order. An
        exception leaves the new buffer as far as it got and is passed
        on. */
    method Build(config: HouseConfig) returns (r: Result<BlockBuffer>)
      modifies this
      ensures fresh(blockBuffer) && blockBuffer.Valid()
      ensures var run := HouseRun(names, Empty, config.rooms);
        && blockBuffer.State() == run.0
        && (run.1.None? ==> r == Success(blockBuffer))
        && (run.1.Some? ==> r == Failure(run.1.value))
    {
      blockBuffer := new BlockBuffer();
      for i := 0 to |config.rooms|
        invariant fresh(blockBuffer) && blockBuffer.Valid()
        invariant HouseRun(names, Empty, config.rooms[..i]) == (blockBuffer.State(), None)
      {
        var e := BuildRoom(config.rooms[i]);
        assert config.rooms[..i + 1][..i] == config.rooms[..i];
        if e.Some? {
          HouseRunAppend(names, Empty, config.rooms[..i + 1], config.rooms[i + 1..]);
          assert config.rooms[..i + 1] + config.rooms[i + 1..] == config.rooms;
          return Failure(e.value);
        }
      }
      assert config.rooms[..|config.rooms|] == config.rooms;
      return Success(blockBuffer);
    }

    /** `buildRoom(roomConfig)`. */
    method BuildRoom(rc: RoomConfig) returns (e: Option<Error>)
      requires blockBuffer.Valid()
      modifies blockBuffer
      ensures blockBuffer.Valid()
      ensures (blockBuffer.State(), e) == RoomRun(names, old(blockBuffer.State()), rc)
    {
      var orientation := RoomOrientation(rc);
      var made := Rooms.New(orientation, rc.width, rc.depth, rc.height);
      if made.Failure? {
        return Some(made.error);
      }
      var room := made.value;
      ghost var r: Room := RoomParams(orientation, rc.width, rc.depth, rc.height);
      assert room.shape == RoomShape(r);
      var refused := AddParts(room, rc);
      if refused.Some? {
        return refused;
      }
      ghost var parts := RoomParts(names, r, rc).value;
      assert room.children == parts;
      var placed := PlaceAll(rc.objects.GetOr([]));
      if placed.Some? {
        return placed;
      }
      var t := room.Build(orientation, OffsetError);
      assert t == BuildTrace(Node(RoomShape(r), parts), OffsetError);
      Write(t.puts);
      return t.error;
    }

    /** The parts of `buildRoom` up to the objects: every configured part
        is appended to the room in the fixed order; the first refusal is
        reported and the room is then discarded. */
    method AddParts(room: Prefab, rc: RoomConfig) returns (e: Option<Error>)
      requires room.shape.RoomShape?
      modifies room
      ensures var parts := RoomParts(names, room.shape.room, rc);
        && (parts.Success? ==> e.None? && room.children == old(room.children) + parts.value)
        && (parts.Failure? ==> e == Some(parts.error))
    {
      for i := 0 to |PartOrder|
        invariant Each(PartOrder[..i], PartFn(names, room.shape.room, rc)).Success?
        invariant room.children == old(room.children) + Each(PartOrder[..i], PartFn(names, room.shape.room, rc)).value
      {
        e := AddPartsOf(room, rc, PartOrder[i]);
        if e.Some? {
          EachFailsAt(PartOrder, PartFn(names, room.shape.room, rc), i);
          return e;
        }
        EachSnoc(old(room.children), PartOrder, PartFn(names, room.shape.room, rc), i);
      }
      assert PartOrder[..|PartOrder|] == PartOrder;
      return None;
    }

    /** The step of `buildRoom` that appends one kind of part. */
    method AddPartsOf(room: Prefab, rc: RoomConfig, kind: PartKind) returns (e: Option<Error>)
      requires room.shape.RoomShape?
      modifies room
      ensures var parts := PartsOf(names, room.shape.room, rc, kind);
        && (parts.Success? ==> e.None? && room.children == old(room.children) + parts.value)
        && (parts.Failure? ==> e == Some(parts.error))
    {
      match kind
      case FloorKind =>
        if rc.floor.Some? {
          var m := ParseBlockType(names, rc.floor.value.material);
          if m.Failure? {
            return Some(m.error);
          }
          var _ := Rooms.AddFloor(room, m.value, rc.floor.value.yOffset.GetOr(0));
        }
        return None;
      case WallsKind =>
        e := AddWalls(room, rc.walls.GetOr([]));
      case WindowsKind =>
        e := AddWindows(room, rc.windows.GetOr([]));
      case DoorsKind =>
        e := AddDoors(room, rc.doors.GetOr([]));
      case StairsKind =>
        e := AddStairsList(room, rc.stairs.GetOr([]));
      case CeilingKind =>
        if rc.ceiling.Some? {
          var m := ParseBlockType(names, rc.ceiling.value.material);
          if m.Failure? {
            return Some(m.error);
          }
          var _ := Rooms.AddCeiling(room, m.value);
        }
        return None;
      case RoofKind =>
        if rc.roof.Some? {
          var m := ParseBlockType(names, rc.roof.value.material);
          if m.Failure? {
            return Some(m.error);
          }
          var _ := Rooms.AddRoof(room, m.value, RoofStyle(rc.roof.value.style));
        }
        return None;
    }

    method AddWalls(room: Prefab, ws: seq<WallConfig>) returns (e: Option<Error>)
      requires room.shape.RoomShape?
      modifies room
      ensures var parts := Each(ws, w => WallPart(names, room.shape.room, w));
        && (parts.Success? ==> e.None? && room.children == old(room.children) + parts.value)
        && (parts.Failure? ==> e == Some(parts.error))
    {
      var r := room.shape.room;
      var part := w => WallPart(names, r, w);
      for i := 0 to |ws|
        invariant Each(ws[..i], part).Success?
        invariant room.children == old(room.children) + Each(ws[..i], part).value
      {
        assert ws[..i + 1][..i] == ws[..i];
        var m := ParseBlockType(names, ws[i].material);
        if m.Failure? {
          EachStops(ws, part, i + 1);
          return Some(m.error);
        }
        var done := Rooms.BuildWall(room, ws[i].side, m.value, ws[i].startHeight.GetOr(1), ws[i].wallHeight);
        if done.Failure? {
          EachStops(ws, part, i + 1);
          return Some(done.error);
        }
        EachSnoc(old(room.children), ws, part, i);
      }
      assert ws[..|ws|] == ws;
      return None;
    }

    method AddWindows(room: Prefab, ws: seq<WindowConfig>) returns (e: Option<Error>)
      requires room.shape.RoomShape?
      modifies room
      ensures var parts := Each(ws, w => WindowPart(names, room.shape.room, w));
        && (parts.Success? ==> e.None? && room.children == old(room.children) + parts.value)
        && (parts.Failure? ==> e == Some(parts.error))
    {
      var r := room.shape.room;
      var part := w => WindowPart(names, r, w);
      for i := 0 to |ws|
        invariant Each(ws[..i], part).Success?
        invariant room.children == old(room.children) + Each(ws[..i], part).value
      {
        assert ws[..i + 1][..i] == ws[..i];
        var options := WindowOptionsFor(names, ws[i]);
        if options.Failure? {
          EachStops(ws, part, i + 1);
          return Some(options.error);
        }
        var done := Rooms.AddWindow(room, ws[i].side, ws[i].offsetAlong, ws[i].offsetHeight, Some(options.value));
        if done.Failure? {
          EachStops(ws, part, i + 1);
          return Some(done.error);
        }
        EachSnoc(old(room.children), ws, part, i);
      }
      assert ws[..|ws|] == ws;
      return None;
    }

    method AddDoors(room: Prefab, ds: seq<DoorConfig>) returns (e: Option<Error>)
      requires room.shape.RoomShape?
      modifies room
      ensures var parts := Each(ds, d => DoorPart(names, room.shape.room, d));
        && (parts.Success? ==> e.None? && room.children == old(room.children) + parts.value)
        && (parts.Failure? ==> e == Some(parts.error))
    {
      var r := room.shape.room;
      var part := d => DoorPart(names, r, d);
      for i := 0 to |ds|
        invariant Each(ds[..i], part).Success?
        invariant room.children == old(room.children) + Each(ds[..i], part).value
      {
        assert ds[..i + 1][..i] == ds[..i];
        var m := ParseDoorType(names, ds[i].material);
        if m.Failure? {
          EachStops(ds, part, i + 1);
          return Some(m.error);
        }
        var _ := Rooms.BuildDoor(room, ds[i].side, ds[i].offsetAlong, m.value);
        EachSnoc(old(room.children), ds, part, i);
      }
      assert ds[..|ds|] == ds;
      return None;
    }

    method AddStairsList(room: Prefab, ss: seq<StairsConfig>) returns (e: Option<Error>)
      requires room.shape.RoomShape?
      modifies room
      ensures var parts := Each(ss, s => StairsPart(names, room.shape.room, s));
        && (parts.Success? ==> e.None? && room.children == old(room.children) + parts.value)
        && (parts.Failure? ==> e == Some(parts.error))
    {
      var r := room.shape.room;
      var part := s => StairsPart(names, r, s);
      for i := 0 to |ss|
        invariant Each(ss[..i], part).Success?
        invariant room.children == old(room.children) + Each(ss[..i], part).value
      {
        assert ss[..i + 1][..i] == ss[..i];
        var m := ParseBlockType(names, ss[i].material);
        if m.Failure? {
          EachStops(ss, part, i + 1);
          return Some(m.error);
        }
        var done := Rooms.AddStairs(room, ss[i].corner, m.value, ss[i].steps);
        if done.Failure? {
          EachStops(ss, part, i + 1);
          return Some(done.error);
        }
        EachSnoc(old(room.children), ss, part, i);
      }
      assert ss[..|ss|] == ss;
      return None;
    }

    /** The objects of a room, in order, written straight into the buffer. */
    method PlaceAll(objs: seq<ObjectConfig>) returns (e: Option<Error>)
      requires blockBuffer.Valid()
      modifies blockBuffer
      ensures blockBuffer.Valid()
      ensures (blockBuffer.State(), e) == PlaceObjects(names, old(blockBuffer.State()), objs)
    {
      for i := 0 to |objs|
        invariant blockBuffer.Valid()
        invariant (blockBuffer.State(), None) == PlaceObjects(names, old(blockBuffer.State()), objs[..i])
      {
        assert objs[..i + 1][..i] == objs[..i];
        var m := ParseBlockType(names, objs[i].objectType);
        if m.Failure? {
          PlaceObjectsStops(names, old(blockBuffer.State()), objs, i + 1);
          return Some(m.error);
        }
        var c := ObjectPut(objs[i], m.value);
        var err := blockBuffer.PutOffset(c.local, c.orientation, c.material);
        if err.Some? {
          PlaceObjectsStops(names, old(blockBuffer.State()), objs, i + 1);
          return err;
        }
      }
      assert objs[..|objs|] == objs;
      return None;
    }

    /** The calls a room's build made, written through `putOffset` in
        order. */
    method Write(calls: seq<Put>)
      requires blockBuffer.Valid()
      modifies blockBuffer
      ensures blockBuffer.Valid()
      ensures blockBuffer.State() == ApplyAll(old(blockBuffer.State()), calls)
    {
      for k := 0 to |calls|
        invariant blockBuffer.Valid()
        invariant blockBuffer.State() == ApplyAll(old(blockBuffer.State()), calls[..k])
      {
        ApplyAllAppend(old(blockBuffer.State()), calls[..k], [calls[k]]);
        assert calls[..k + 1] == calls[..k] + [calls[k]];
        var _ := blockBuffer.PutOffset(calls[k].local, calls[k].orientation, calls[k].material);
      }
      assert calls[..|calls|] == calls;
    }
  }

  /** Once a step of a list has failed, the later items are never looked
      at. */
  lemma {:induction false} EachStops<T>(items: seq<T>, part: T -> Result<seq<Node>>, i: nat)
    requires 0 < i <= |items|
    requires Each(items[..i], part).Failure?
    ensures Each(items, part) == Each(items[..i], part)
    decreases |items| - i
  {
    if i < |items| {
      assert items[..i + 1][..i] == items[..i];
      EachStops(items, part, i + 1);
    } else {
      assert items[..i] == items;
    }
  }

  /** The first item refused is the whole list's refusal. */
  lemma EachFailsAt<T>(items: seq<T>, part: T -> Result<seq<Node>>, i: nat)
    requires i < |items| && Each(items[..i], part).Success? && part(items[i]).Failure?
    ensures Each(items, part) == part(items[i])
  {
    assert items[..i + 1][..i] == items[..i];
    EachStops(items, part, i + 1);
  }

  /** Once an object has thrown, the later ones are never looked at. */
  lemma {:induction false} PlaceObjectsStops(names: Names, s: BufferState, objs: seq<ObjectConfig>, i: nat)
    requires 0 < i <= |objs|
    requires PlaceObjects(names, s, objs[..i]).1.Some?
    ensures PlaceObjects(names, s, objs) == PlaceObjects(names, s, objs[..i])
    decreases |objs| - i
  {
    if i < |objs| {
      assert objs[..i + 1][..i] == objs[..i];
      PlaceObjectsStops(names, s, objs, i + 1);
    } else {
      assert objs[..i] == objs;
    }
  }
}
