// The house visualizer (scripts/visualization/HouseVisualizer.ts): four
// preview modes, each a sequence of `putOffset` calls into a fresh block
// buffer, and the bounding box of a house. Every renderer works in the frame
// of the room's own orientation, built from the room's position and rotation.
// Lines are drawn by `VisualizerLines.DrawLine` with the comparison `cmp`
// passed down from `Visualize`: `AsWritten` is the program's `>=` test,
// `Corrected` the repaired `>` one; the lemmas hold for both unless they say.
module HouseVisualizers {
  import opened Errors
  import opened Geometry
  import opened Blocks
  import opened Puts
  import opened Spans
  import opened BlockBuffers
  import opened HouseConfigs
  import Rooms
  import opened VisualizerLines
  import opened JsMath

  datatype VisualizationMode = Wireframe | Holographic | Solid | ColoredBounds

  /** The options the renderers read; the others are carried but unused. */
  datatype VisualizerOptions = VisualizerOptions(mode: VisualizationMode, highlightConnections: Option<bool>)

  /** `options.highlightConnections` is truthy. */
  predicate Highlights(options: VisualizerOptions)
  {
    options.highlightConnections == Some(true)
  }

  /** The frame every renderer of a room draws in: its position, turned by
      its rotation (cast to a rotation without a check). */
  function RoomOrientation(room: RoomConfig): Orientation
  {
    Orientation(Point(room.position.x, room.position.y, room.position.z), room.rotation)
  }

  // ---------------------------------------------------------------------
  // Wireframe

  /** One of the eight corners of a width x depth x height room's wireframe. */
  predicate IsCorner(p: Point, width: int, depth: int, height: int)
  {
    (p.x == 0 || p.x == width - 1) && (p.y == 0 || p.y == height) && (p.z == 0 || p.z == depth - 1)
  }

  /** The two end points agree on at least two coordinates. */
  predicate AxisAligned(s: Segment)
  {
    (s.x1 == s.x2 && s.y1 == s.y2) || (s.x1 == s.x2 && s.z1 == s.z2) || (s.y1 == s.y2 && s.z1 == s.z2)
  }

  /** The twelve edges of a room in drawing order: the four bottom edges,
      the same four at y = height, then the four verticals. */
  function Edges(width: int, depth: int, height: int): (e: seq<Segment>)
    ensures |e| == 12
    ensures forall k :: 0 <= k < 12 ==>
      IsCorner(e[k].Start(), width, depth, height) && IsCorner(e[k].End(), width, depth, height) &&
      AxisAligned(e[k])
  {
    var w, d, h := width - 1, depth - 1, height;
    [Segment(0, 0, 0, w, 0, 0), Segment(0, 0, d, w, 0, d), Segment(0, 0, 0, 0, 0, d), Segment(w, 0, 0, w, 0, d),
     Segment(0, h, 0, w, h, 0), Segment(0, h, d, w, h, d), Segment(0, h, 0, 0, h, d), Segment(w, h, 0, w, h, d),
     Segment(0, 0, 0, 0, h, 0), Segment(w, 0, 0, w, h, 0), Segment(0, 0, d, 0, h, d), Segment(w, 0, d, w, h, d)]
  }

  /** The corner picked by three choices: far in x, at the top, far in z. */
  function Corner(width: int, depth: int, height: int, farX: bool, top: bool, farZ: bool): Point
  {
    Point(if farX then width - 1 else 0, if top then height else 0, if farZ then depth - 1 else 0)
  }

  /** Every corner of the room ends one of the twelve edges. */
  lemma EdgesReachCorners(width: int, depth: int, height: int, farX: bool, top: bool, farZ: bool) returns (k: nat)
    ensures k < 12
    ensures Edges(width, depth, height)[k].Start() == Corner(width, depth, height, farX, top, farZ) ||
            Edges(width, depth, height)[k].End() == Corner(width, depth, height, farX, top, farZ)
  {
    k := if top then 4 else 0;
    if farX && farZ {
      k := k + 3;
      assert Edges(width, depth, height)[k].End() == Corner(width, depth, height, farX, top, farZ);
    } else if farX {
      assert Edges(width, depth, height)[k].End() == Corner(width, depth, height, farX, top, farZ);
    } else if farZ {
      k := k + 1;
      assert Edges(width, depth, height)[k].Start() == Corner(width, depth, height, farX, top, farZ);
    } else {
      assert Edges(width, depth, height)[k].Start() == Corner(width, depth, height, farX, top, farZ);
    }
  }

  /** Edge k of a room's wireframe, drawn. */
  function EdgeCall(o: Orientation, edges: seq<Segment>, material: Material, cmp: Comparison): int -> seq<Put>
  {
    k => if 0 <= k < |edges| then LineCalls(o, edges[k], material, cmp) else []
  }

  /** Where a door or window marker goes, relative to the room's position:
      `offset` blocks along the side's wall, `y` blocks up. */
  function MarkerSpot(room: RoomConfig, side: Rooms.Side, offset: int, y: int): Point
  {
    var xz := match side
      case Front => (offset, 0)
      case Back => (offset, room.depth - 1)
      case LeftSide => (0, offset)
      case RightSide => (room.width - 1, offset);
    Point(room.position.x + xz.0, room.position.y + y, room.position.z + xz.1)
  }

  /** A marker lies in the plane of its side's wall, `offset` blocks along
      it, at the height asked for. */
  lemma MarkerOnWall(room: RoomConfig, side: Rooms.Side, offset: int, y: int)
    ensures var p := MarkerSpot(room, side, offset, y);
      p.y == room.position.y + y &&
      (side == Rooms.Front ==> p.z == room.position.z && p.x == room.position.x + offset) &&
      (side == Rooms.Back ==> p.z == room.position.z + room.depth - 1 && p.x == room.position.x + offset) &&
      (side == Rooms.LeftSide ==> p.x == room.position.x && p.z == room.position.z + offset) &&
      (side == Rooms.RightSide ==> p.x == room.position.x + room.width - 1 && p.z == room.position.z + offset)
  {
  }

  /** A door marker: two iron blocks stacked, the lower one at height 1. */
  function DoorMarker(room: RoomConfig, door: DoorConfig): (calls: seq<Put>)
    ensures |calls| == 2
    ensures calls[1].local == calls[0].local.Plus(Up)
    ensures calls[0].local == MarkerSpot(room, door.side, door.offsetAlong, 1)
    ensures forall k :: 0 <= k < 2 ==>
      calls[k].material == IronBlock && calls[k].orientation == RoomOrientation(room)
  {
    var p := MarkerSpot(room, door.side, door.offsetAlong, 1);
    [Put(RoomOrientation(room), p, IronBlock),
     Put(RoomOrientation(room), Point(p.x, p.y + 1, p.z), IronBlock)]
  }

  /** A window marker: one light blue glass block at the window's height. */
  function WindowMarker(room: RoomConfig, window: WindowConfig): (calls: seq<Put>)
    ensures |calls| == 1
    ensures calls[0].local == MarkerSpot(room, window.side, window.offsetAlong, window.offsetHeight)
    ensures calls[0].material == LightBlueStainedGlass && calls[0].orientation == RoomOrientation(room)
  {
    [Put(RoomOrientation(room), MarkerSpot(room, window.side, window.offsetAlong, window.offsetHeight),
         LightBlueStainedGlass)]
  }

  function DoorCall(room: RoomConfig, doors: seq<DoorConfig>): int -> seq<Put>
  {
    k => if 0 <= k < |doors| then DoorMarker(room, doors[k]) else []
  }

  function WindowCall(room: RoomConfig, windows: seq<WindowConfig>): int -> seq<Put>
  {
    k => if 0 <= k < |windows| then WindowMarker(room, windows[k]) else []
  }

  /** The markers of every door the room lists, in order. */
  function DoorMarkers(room: RoomConfig): seq<Put>
  {
    match room.doors
    case None => []
    case Some(doors) => Span(0, |doors|, DoorCall(room, doors))
  }

  /** The markers of every window the room lists, in order. */
  function WindowMarkers(room: RoomConfig): seq<Put>
  {
    match room.windows
    case None => []
    case Some(windows) => Span(0, |windows|, WindowCall(room, windows))
  }

  /** `renderRoomWireframe`: the twelve edges, then the door markers, then
      the window markers. */
  function RoomWireframe(room: RoomConfig, material: Material, cmp: Comparison): seq<Put>
  {
    Span(0, 12, EdgeCall(RoomOrientation(room), Edges(room.width, room.depth, room.height), material, cmp))
      + DoorMarkers(room) + WindowMarkers(room)
  }

  /** Door markers are two blocks per door; window markers one per window. */
  lemma MarkerCounts(room: RoomConfig)
    ensures room.doors.Some? ==> |DoorMarkers(room)| == 2 * |room.doors.value|
    ensures room.doors.None? ==> DoorMarkers(room) == []
    ensures room.windows.Some? ==> |WindowMarkers(room)| == |room.windows.value|
    ensures room.windows.None? ==> WindowMarkers(room) == []
  {
    if room.doors.Some? {
      SpanLength(0, |room.doors.value|, DoorCall(room, room.doors.value), 2);
    }
    if room.windows.Some? {
      SpanLength(0, |room.windows.value|, WindowCall(room, room.windows.value), 1);
    }
  }

  /** The first block of a wireframe is at the room's own position, given
      as a local point of the room's frame; `putOffset` adds the position
      again, so under rotation 0 it lands at twice the room's position. */
  lemma WireframeStart(room: RoomConfig, material: Material, cmp: Comparison)
    ensures |RoomWireframe(room, material, cmp)| > 0
    ensures RoomWireframe(room, material, cmp)[0] ==
      Put(RoomOrientation(room), Point(room.position.x, room.position.y, room.position.z), material)
    ensures room.rotation == 0 ==>
      OffsetTarget(RoomWireframe(room, material, cmp)[0].local, RoomOrientation(room)) ==
        Success(Point(2 * room.position.x, 2 * room.position.y, 2 * room.position.z))
  {
    EdgesStart(room, material, cmp);
    if room.rotation == 0 {
      PositionTwice(room);
    }
  }

  /** The third block of a 3-wide room's wireframe ends its front bottom
      edge, given relative to the room's position. As written it is one
      block below and one block in front of that edge's far corner (2,0,0);
      corrected, it is the corner. */
  lemma WireframeFrontEdge(room: RoomConfig, material: Material)
    requires room.width == 3
    ensures var asWritten := RoomWireframe(room, material, AsWritten);
      |asWritten| > 2 && asWritten[2].local == RoomOrientation(room).point.Plus(Point(2, -1, -1))
    ensures var corrected := RoomWireframe(room, material, Corrected);
      |corrected| > 2 && corrected[2].local == RoomOrientation(room).point.Plus(Point(2, 0, 0))
  {
    WireframeThirdBlock(room, material, AsWritten);
    WireframeThirdBlock(room, material, Corrected);
    ThreeBlockLine();
  }

  /** The third block of a wireframe whose front edge has three blocks is
      that edge's third. */
  lemma WireframeThirdBlock(room: RoomConfig, material: Material, cmp: Comparison)
    requires room.width == 3
    ensures |RoomWireframe(room, material, cmp)| > 2
    ensures RoomWireframe(room, material, cmp)[2].local ==
      RoomOrientation(room).point.Plus(OffsetAt(Segment(0, 0, 0, 2, 0, 0), 2, cmp))
  {
    var o := RoomOrientation(room);
    var edges := Edges(room.width, room.depth, room.height);
    FrontEdge(room.width, room.depth, room.height);
    LineShape(o, edges[0], material, cmp);
    FrontEdgeThird(o, edges, material, cmp);
    WireframeThird(room, material, cmp);
  }

  /** The first edge is the front bottom one, along x. */
  lemma FrontEdge(width: int, depth: int, height: int)
    ensures Edges(width, depth, height)[0] == Segment(0, 0, 0, width - 1, 0, 0)
  {
  }

  /** The wireframe opens with its edges. */
  lemma WireframeThird(room: RoomConfig, material: Material, cmp: Comparison)
    requires |Span(0, 12, EdgeCall(RoomOrientation(room), Edges(room.width, room.depth, room.height), material, cmp))| > 2
    ensures |RoomWireframe(room, material, cmp)| > 2
    ensures RoomWireframe(room, material, cmp)[2] ==
      Span(0, 12, EdgeCall(RoomOrientation(room), Edges(room.width, room.depth, room.height), material, cmp))[2]
  {
  }

  /** The third block of the edges is the third of the first edge's line. */
  lemma FrontEdgeThird(o: Orientation, edges: seq<Segment>, material: Material, cmp: Comparison)
    requires |edges| == 12 && |LineCalls(o, edges[0], material, cmp)| == 3
    ensures |Span(0, 12, EdgeCall(o, edges, material, cmp))| > 2
    ensures Span(0, 12, EdgeCall(o, edges, material, cmp))[2] == LineCalls(o, edges[0], material, cmp)[2]
  {
    SpanHeadAt(0, 12, EdgeCall(o, edges, material, cmp), 2);
  }

  /** The room's position as a local point of its unturned frame lands at
      twice the position. */
  lemma PositionTwice(room: RoomConfig)
    requires room.rotation == 0
    ensures OffsetTarget(Point(room.position.x, room.position.y, room.position.z), RoomOrientation(room)) ==
      Success(Point(2 * room.position.x, 2 * room.position.y, 2 * room.position.z))
  {
    var p := Point(room.position.x, room.position.y, room.position.z);
    assert RoomOrientation(room) == Orientation(p, 0);
    OffsetAtZero(p, p);
    assert p.Plus(p) == Point(2 * room.position.x, 2 * room.position.y, 2 * room.position.z);
  }

  /** The edges' first call is the front bottom edge's first. */
  lemma EdgesStart(room: RoomConfig, material: Material, cmp: Comparison)
    ensures var edges := Span(0, 12, EdgeCall(RoomOrientation(room), Edges(room.width, room.depth, room.height), material, cmp));
      |edges| > 0 &&
      edges[0] == Put(RoomOrientation(room), Point(room.position.x, room.position.y, room.position.z), material)
  {
    var o := RoomOrientation(room);
    var front := Edges(room.width, room.depth, room.height)[0];
    LineCallsAt(o, front, material, cmp, 0);
    assert OffsetAt(front, 0, cmp) == Origin;
    SpanFirst(0, 12, EdgeCall(o, Edges(room.width, room.depth, room.height), material, cmp));
  }

  // ---------------------------------------------------------------------
  // Holographic

  /** The glass colours of the holographic mode, by room index. */
  const GlassColors: seq<Material> := [
    BlueStainedGlass, GreenStainedGlass, RedStainedGlass,
    YellowStainedGlass, PurpleStainedGlass, CyanStainedGlass]

  /** Front and back walls, at row y and column x. */
  function FrontBackCell(room: RoomConfig, material: Material): (int, int) -> seq<Put>
  {
    (y, x) =>
      [Put(RoomOrientation(room), Point(room.position.x + x, room.position.y + y, room.position.z), material),
       Put(RoomOrientation(room), Point(room.position.x + x, room.position.y + y, room.position.z + room.depth - 1), material)]
  }

  /** Left and right walls, at row y and column z. */
  function SideCell(room: RoomConfig, material: Material): (int, int) -> seq<Put>
  {
    (y, z) =>
      [Put(RoomOrientation(room), Point(room.position.x, room.position.y + y, room.position.z + z), material),
       Put(RoomOrientation(room), Point(room.position.x + room.width - 1, room.position.y + y, room.position.z + z), material)]
  }

  /** Floor and ceiling, in clear glass, at row x and column z. */
  function FloorCell(room: RoomConfig): (int, int) -> seq<Put>
  {
    (x, z) =>
      [Put(RoomOrientation(room), Point(room.position.x + x, room.position.y, room.position.z + z), Glass),
       Put(RoomOrientation(room), Point(room.position.x + x, room.position.y + room.height, room.position.z + z), Glass)]
  }

  /** `renderRoomHolographic`: front and back walls for y in 0..height and
      x in 0..width-1, left and right walls for y in 0..height and z in
      0..depth-1, then floor and ceiling for x and z. */
  function RoomHolographic(room: RoomConfig, material: Material): seq<Put>
  {
    Grid(0, room.height + 1, 0, room.width, FrontBackCell(room, material))
      + Grid(0, room.height + 1, 0, room.depth, SideCell(room, material))
      + Grid(0, room.width, 0, room.depth, FloorCell(room))
  }

  /** Two blocks per cell of each of the three grids. */
  lemma HolographicCount(room: RoomConfig, material: Material)
    requires room.width >= 0 && room.depth >= 0 && room.height >= 0
    ensures |RoomHolographic(room, material)| ==
      (room.height + 1) * (room.width * 2) + (room.height + 1) * (room.depth * 2) + room.width * (room.depth * 2)
  {
    GridLengthEach(0, room.height + 1, 0, room.width, FrontBackCell(room, material), 2);
    GridLengthEach(0, room.height + 1, 0, room.depth, SideCell(room, material), 2);
    GridLengthEach(0, room.width, 0, room.depth, FloorCell(room), 2);
  }

  /** Inside the room's box: x in 0..width-1, y in 0..height, z in
      0..depth-1 from its position. */
  predicate InRoomBox(p: Point, room: RoomConfig)
  {
    room.position.x <= p.x <= room.position.x + room.width - 1 &&
    room.position.y <= p.y <= room.position.y + room.height &&
    room.position.z <= p.z <= room.position.z + room.depth - 1
  }

  /** Every holographic block is in the room's frame and box; the walls use
      the room's colour and the floor and ceiling clear glass. */
  lemma HolographicShell(room: RoomConfig, material: Material, c: Put)
    requires c in RoomHolographic(room, material)
    ensures c.orientation == RoomOrientation(room)
    ensures c.material == material || c.material == Glass
    ensures room.width >= 1 && room.depth >= 1 && room.height >= 0 ==> InRoomBox(c.local, room)
  {
    var g1, g2, g3 := FrontBackCell(room, material), SideCell(room, material), FloorCell(room);
    GridMember(0, room.height + 1, 0, room.width, g1, c);
    GridMember(0, room.height + 1, 0, room.depth, g2, c);
    GridMember(0, room.width, 0, room.depth, g3, c);
    if c in Grid(0, room.height + 1, 0, room.width, g1) {
      var r, k :| 0 <= r < room.height + 1 && 0 <= k < room.width && c in g1(r, k);
    } else if c in Grid(0, room.height + 1, 0, room.depth, g2) {
      var r, k :| 0 <= r < room.height + 1 && 0 <= k < room.depth && c in g2(r, k);
    } else {
      var r, k :| 0 <= r < room.width && 0 <= k < room.depth && c in g3(r, k);
    }
  }

  // ---------------------------------------------------------------------
  // Coloured bounds

  /** The wool colours of the coloured-bounds mode, by room index. */
  const BoundColors: seq<Material> := [
    RedWool, BlueWool, GreenWool, YellowWool,
    PurpleWool, OrangeWool, LimeWool, CyanWool]

  /** No colour repeats within either palette, so consecutive rooms, up
      to eight in coloured-bounds mode and six in holographic mode, differ. */
  lemma ColoursDistinct()
    ensures forall i, j :: 0 <= i < j < 8 ==> BoundColors[i] != BoundColors[j]
    ensures forall i, j :: 0 <= i < j < 6 ==> GlassColors[i] != GlassColors[j]
  {
  }

  /** The corner-cube block at offset (dx, dy, dz) from (x, y, z) past the
      frame's point. */
  function CubeBlock(o: Orientation, x: int, y: int, z: int, material: Material, dx: int, dy: int, dz: int): Put
  {
    Put(o, Point(o.point.x + x + dx, o.point.y + y + dy, o.point.z + z + dz), material)
  }

  /** Blocks all of one material in one frame. */
  predicate Uniform(calls: seq<Put>, o: Orientation, material: Material)
  {
    forall k :: 0 <= k < |calls| ==> calls[k].orientation == o && calls[k].material == material
  }

  /** `drawCornerMarker`'s blocks in loop order, dz innermost: the
      2 x 2 x 2 cube. */
  function CornerMarker(o: Orientation, x: int, y: int, z: int, material: Material): (r: seq<Put>)
    ensures |r| == 8
  {
    [CubeBlock(o, x, y, z, material, 0, 0, 0), CubeBlock(o, x, y, z, material, 0, 0, 1),
     CubeBlock(o, x, y, z, material, 0, 1, 0), CubeBlock(o, x, y, z, material, 0, 1, 1),
     CubeBlock(o, x, y, z, material, 1, 0, 0), CubeBlock(o, x, y, z, material, 1, 0, 1),
     CubeBlock(o, x, y, z, material, 1, 1, 0), CubeBlock(o, x, y, z, material, 1, 1, 1)]
  }

  /** The cube is all one material in one frame. */
  lemma CornerMarkerUniform(o: Orientation, x: int, y: int, z: int, material: Material)
    ensures Uniform(CornerMarker(o, x, y, z, material), o, material)
  {
  }

  /** The cube's eight blocks go to eight different cells. */
  lemma CornerMarkerCells(o: Orientation, x: int, y: int, z: int, material: Material)
    ensures forall i, j :: 0 <= i < j < 8 ==> CornerMarker(o, x, y, z, material)[i].local != CornerMarker(o, x, y, z, material)[j].local
  {
  }

  /** Iteration (dx, dy, dz) of the corner loops emits block 4dx + 2dy + dz. */
  lemma CubeAt(o: Orientation, x: int, y: int, z: int, material: Material, dx: int, dy: int, dz: int)
    requires 0 <= dx < 2 && 0 <= dy < 2 && 0 <= dz < 2
    ensures CornerMarker(o, x, y, z, material)[4 * dx + 2 * dy + dz] == CubeBlock(o, x, y, z, material, dx, dy, dz)
  {
    var cube := CornerMarker(o, x, y, z, material);
    assert cube[4 * dx + 2 * dy + dz] == cube[if dx == 0 then (if dy == 0 then dz else 2 + dz) else (if dy == 0 then 4 + dz else 6 + dz)];
  }

  /** `renderRoomBounds`: cubes at the four bottom corners, the far ones
      two blocks in from width and depth. */
  function RoomBounds(room: RoomConfig, material: Material): seq<Put>
  {
    CornerMarker(RoomOrientation(room), 0, 0, 0, material)
      + CornerMarker(RoomOrientation(room), room.width - 2, 0, 0, material)
      + CornerMarker(RoomOrientation(room), 0, 0, room.depth - 2, material)
      + CornerMarker(RoomOrientation(room), room.width - 2, 0, room.depth - 2, material)
  }

  /** Four uniform runs of eight make a uniform run of 32. */
  lemma UniformFour(a: seq<Put>, b: seq<Put>, c: seq<Put>, d: seq<Put>, o: Orientation, material: Material)
    requires |a| == |b| == |c| == |d| == 8
    requires Uniform(a, o, material) && Uniform(b, o, material) && Uniform(c, o, material) && Uniform(d, o, material)
    ensures |a + b + c + d| == 32 && Uniform(a + b + c + d, o, material)
  {
    forall k | 0 <= k < 32 ensures (a + b + c + d)[k].orientation == o && (a + b + c + d)[k].material == material {
      if k < 8 {
        assert (a + b + c + d)[k] == a[k];
      } else if k < 16 {
        assert (a + b + c + d)[k] == b[k - 8];
      } else if k < 24 {
        assert (a + b + c + d)[k] == c[k - 16];
      } else {
        assert (a + b + c + d)[k] == d[k - 24];
      }
    }
  }

  /** Room bounds are 32 blocks of the room's colour, in the room's frame. */
  lemma RoomBoundsBlocks(room: RoomConfig, material: Material)
    ensures |RoomBounds(room, material)| == 32
    ensures Uniform(RoomBounds(room, material), RoomOrientation(room), material)
  {
    CornerMarkerUniform(RoomOrientation(room), 0, 0, 0, material);
    CornerMarkerUniform(RoomOrientation(room), room.width - 2, 0, 0, material);
    CornerMarkerUniform(RoomOrientation(room), 0, 0, room.depth - 2, material);
    CornerMarkerUniform(RoomOrientation(room), room.width - 2, 0, room.depth - 2, material);
    UniformFour(CornerMarker(RoomOrientation(room), 0, 0, 0, material),
                CornerMarker(RoomOrientation(room), room.width - 2, 0, 0, material),
                CornerMarker(RoomOrientation(room), 0, 0, room.depth - 2, material),
                CornerMarker(RoomOrientation(room), room.width - 2, 0, room.depth - 2, material),
                RoomOrientation(room), material);
  }

  // ---------------------------------------------------------------------
  // Connections

  /** `getRoomCenter`: the position plus half of each extent, rounded down. */
  function RoomCenter(room: RoomConfig): (c: Point)
    ensures 2 * (c.x - room.position.x) == room.width || 2 * (c.x - room.position.x) == room.width - 1
    ensures 2 * (c.y - room.position.y) == room.height || 2 * (c.y - room.position.y) == room.height - 1
    ensures 2 * (c.z - room.position.z) == room.depth || 2 * (c.z - room.position.z) == room.depth - 1
  {
    Point(room.position.x + room.width / 2, room.position.y + room.height / 2, room.position.z + room.depth / 2)
  }

  /** The centre of a room at least one block in each extent is inside it. */
  lemma CenterInside(room: RoomConfig)
    requires room.width >= 1 && room.depth >= 1 && room.height >= 0
    ensures InRoomBox(RoomCenter(room), room)
  {
  }

  /** The line drawn for a connection, between the two rooms' centres. */
  function ConnectionSegment(from: RoomConfig, to: RoomConfig): Segment
  {
    var c1, c2 := RoomCenter(from), RoomCenter(to);
    Segment(c1.x, c1.y, c1.z, c2.x, c2.y, c2.z)
  }

  /** Both ends of a connection name rooms of the house. */
  predicate Joins(rooms: seq<RoomConfig>, connection: RoomConnection)
  {
    0 <= connection.fromRoomIndex < |rooms| && 0 <= connection.toRoomIndex < |rooms|
  }

  /** Connection k, drawn in gold from centre to centre in the unturned
      frame at the origin, or nothing when a room index is out of range. */
  function ConnectionCall(rooms: seq<RoomConfig>, connections: seq<RoomConnection>, cmp: Comparison): int -> seq<Put>
  {
    k =>
      if 0 <= k < |connections| && Joins(rooms, connections[k]) then
        LineCalls(ZeroOrientation,
                  ConnectionSegment(rooms[connections[k].fromRoomIndex], rooms[connections[k].toRoomIndex]),
                  GoldBlock, cmp)
      else []
  }

  /** `renderConnections`. */
  function ConnectionLines(config: HouseConfig, cmp: Comparison): seq<Put>
  {
    match config.connections
    case None => []
    case Some(connections) => Span(0, |connections|, ConnectionCall(config.rooms, connections, cmp))
  }

  /** Whichever test draws it, a connection between two rooms of the house
      is a gold line of dm + 1 blocks that starts at the first room's
      centre. */
  lemma ConnectionLineStarts(config: HouseConfig, k: int, cmp: Comparison)
    requires config.connections.Some? && 0 <= k < |config.connections.value|
    requires Joins(config.rooms, config.connections.value[k])
    ensures var calls := ConnectionCall(config.rooms, config.connections.value, cmp)(k);
      var from := config.rooms[config.connections.value[k].fromRoomIndex];
      var to := config.rooms[config.connections.value[k].toRoomIndex];
      |calls| == ConnectionSegment(from, to).Steps() + 1 && calls[0].local == RoomCenter(from) &&
      forall j :: 0 <= j < |calls| ==> calls[j].material == GoldBlock && calls[j].orientation == ZeroOrientation
  {
    var c := config.connections.value[k];
    LineShape(ZeroOrientation, ConnectionSegment(config.rooms[c.fromRoomIndex], config.rooms[c.toRoomIndex]), GoldBlock, cmp);
  }

  /** With the corrected test, a connection's line also ends at the second
      room's centre. */
  lemma ConnectionLineEnds(config: HouseConfig, k: int)
    requires config.connections.Some? && 0 <= k < |config.connections.value|
    requires Joins(config.rooms, config.connections.value[k])
    ensures var calls := ConnectionCall(config.rooms, config.connections.value, Corrected)(k);
      var to := config.rooms[config.connections.value[k].toRoomIndex];
      |calls| > 0 && calls[|calls| - 1].local == RoomCenter(to)
  {
    var c := config.connections.value[k];
    var seg := ConnectionSegment(config.rooms[c.fromRoomIndex], config.rooms[c.toRoomIndex]);
    CorrectedLineEnds(ZeroOrientation, seg, GoldBlock);
  }

  /** As written, a connection between rooms centred at (0,0,0) and
      (2,0,0), which share y and z, ends at (2,-1,-1), off the second
      room's centre. */
  lemma ConnectionAsWrittenMisses(config: HouseConfig, k: int, from: RoomConfig, to: RoomConfig)
    requires config.connections.Some? && 0 <= k < |config.connections.value|
    requires Joins(config.rooms, config.connections.value[k])
    requires from == config.rooms[config.connections.value[k].fromRoomIndex]
    requires to == config.rooms[config.connections.value[k].toRoomIndex]
    requires RoomCenter(from) == Point(0, 0, 0) && RoomCenter(to) == Point(2, 0, 0)
    ensures var calls := ConnectionCall(config.rooms, config.connections.value, AsWritten)(k);
      |calls| == 3 && calls[2].local == Point(2, -1, -1) && calls[2].local != RoomCenter(to)
  {
    ConnectionCallIs(config, k, AsWritten);
    CentresSegment(from, to);
    OriginThirdCall(ConnectionSegment(from, to));
  }

  /** A connection between two rooms is the line between their centres. */
  lemma ConnectionCallIs(config: HouseConfig, k: int, cmp: Comparison)
    requires config.connections.Some? && 0 <= k < |config.connections.value|
    requires Joins(config.rooms, config.connections.value[k])
    ensures ConnectionCall(config.rooms, config.connections.value, cmp)(k) ==
      LineCalls(ZeroOrientation, ConnectionSegment(config.rooms[config.connections.value[k].fromRoomIndex],
                                                   config.rooms[config.connections.value[k].toRoomIndex]), GoldBlock, cmp)
  {
  }

  /** Centres (0,0,0) and (2,0,0) give the segment between them. */
  lemma CentresSegment(from: RoomConfig, to: RoomConfig)
    requires RoomCenter(from) == Point(0, 0, 0) && RoomCenter(to) == Point(2, 0, 0)
    ensures var seg := ConnectionSegment(from, to);
      seg.x1 == 0 && seg.y1 == 0 && seg.z1 == 0 && seg.x2 == 2 && seg.y2 == 0 && seg.z2 == 0
  {
  }

  /** The as-written gold line from (0,0,0) to (2,0,0) in the unturned
      frame at the origin ends at (2,-1,-1). */
  lemma OriginThirdCall(seg: Segment)
    requires seg.x1 == 0 && seg.y1 == 0 && seg.z1 == 0 && seg.x2 == 2 && seg.y2 == 0 && seg.z2 == 0
    ensures var calls := LineCalls(ZeroOrientation, seg, GoldBlock, AsWritten);
      |calls| == 3 && calls[2].local == Point(2, -1, -1)
  {
    AsWrittenThirdCall(ZeroOrientation, seg, GoldBlock);
  }

  /** A connection naming a room the house does not have draws nothing. */
  lemma ConnectionSkipped(config: HouseConfig, k: int, cmp: Comparison)
    requires config.connections.Some? && 0 <= k < |config.connections.value|
    requires !Joins(config.rooms, config.connections.value[k])
    ensures ConnectionCall(config.rooms, config.connections.value, cmp)(k) == []
  {
  }

  // ---------------------------------------------------------------------
  // The four modes

  /** Room i of a wireframe or solid preview. */
  function WireframeOf(rooms: seq<RoomConfig>, material: Material, cmp: Comparison): int -> seq<Put>
  {
    i => if 0 <= i < |rooms| then RoomWireframe(rooms[i], material, cmp) else []
  }

  /** Room i of a holographic preview, in glass colour i mod 6. */
  function HolographicOf(rooms: seq<RoomConfig>): int -> seq<Put>
  {
    i => if 0 <= i < |rooms| then RoomHolographic(rooms[i], GlassColors[i % 6]) else []
  }

  /** Room i of a coloured-bounds preview, in wool colour i mod 8. */
  function BoundsOf(rooms: seq<RoomConfig>): int -> seq<Put>
  {
    i => if 0 <= i < |rooms| then RoomBounds(rooms[i], BoundColors[i % 8]) else []
  }

  /** What `visualize` writes, call by call, for the selected mode only:
      wireframes in glass (then, when asked for and present, the connection
      lines), holographic shells, wireframes in stone bricks, or coloured
      corner cubes. */
  function ModeCalls(config: HouseConfig, options: VisualizerOptions, cmp: Comparison): seq<Put>
  {
    match options.mode
    case Wireframe =>
      Span(0, |config.rooms|, WireframeOf(config.rooms, Glass, cmp))
        + (if Highlights(options) && config.connections.Some? then ConnectionLines(config, cmp) else [])
    case Holographic => Span(0, |config.rooms|, HolographicOf(config.rooms))
    case Solid => Span(0, |config.rooms|, WireframeOf(config.rooms, StoneBricks, cmp))
    case ColoredBounds => Span(0, |config.rooms|, BoundsOf(config.rooms))
  }

  /** Room i's coloured bounds are all wool colour i mod 8. */
  lemma BoundsColour(rooms: seq<RoomConfig>, i: int)
    requires 0 <= i < |rooms|
    ensures Uniform(BoundsOf(rooms)(i), RoomOrientation(rooms[i]), BoundColors[i % 8])
  {
    RoomBoundsBlocks(rooms[i], BoundColors[i % 8]);
  }

  /** Room i's holographic shell is glass colour i mod 6, floor clear glass. */
  lemma HolographicColour(rooms: seq<RoomConfig>, i: int)
    requires 0 <= i < |rooms|
    ensures forall c :: c in HolographicOf(rooms)(i) ==> c.material == GlassColors[i % 6] || c.material == Glass
  {
    forall c | c in RoomHolographic(rooms[i], GlassColors[i % 6]) ensures c.material == GlassColors[i % 6] || c.material == Glass {
      HolographicShell(rooms[i], GlassColors[i % 6], c);
    }
  }

  // ---------------------------------------------------------------------
  // Which calls can throw

  /** Every call's frame has a quarter-turn rotation, so `putOffset` never
      throws on it. */
  predicate FramesValid(calls: seq<Put>)
  {
    forall c :: c in calls ==> ValidRotation(c.orientation.rotation)
  }

  lemma LineFrames(o: Orientation, seg: Segment, material: Material, cmp: Comparison)
    requires ValidRotation(o.rotation)
    ensures FramesValid(LineCalls(o, seg, material, cmp))
  {
    LineShape(o, seg, material, cmp);
  }

  lemma FramesThree(a: seq<Put>, b: seq<Put>, c: seq<Put>)
    requires FramesValid(a) && FramesValid(b) && FramesValid(c)
    ensures FramesValid(a + b + c)
  {
  }

  lemma EdgeFrames(room: RoomConfig, material: Material, cmp: Comparison)
    requires ValidRotation(room.rotation)
    ensures FramesValid(Span(0, 12, EdgeCall(RoomOrientation(room), Edges(room.width, room.depth, room.height), material, cmp)))
  {
    var edges := Edges(room.width, room.depth, room.height);
    forall k | 0 <= k < 12 ensures FramesValid(EdgeCall(RoomOrientation(room), edges, material, cmp)(k)) {
      LineFrames(RoomOrientation(room), edges[k], material, cmp);
    }
    SpanAll(0, 12, EdgeCall(RoomOrientation(room), edges, material, cmp), (c: Put) => ValidRotation(c.orientation.rotation));
  }

  lemma MarkerFrames(room: RoomConfig)
    requires ValidRotation(room.rotation)
    ensures FramesValid(DoorMarkers(room)) && FramesValid(WindowMarkers(room))
  {
    if room.doors.Some? {
      SpanAll(0, |room.doors.value|, DoorCall(room, room.doors.value), (c: Put) => ValidRotation(c.orientation.rotation));
    }
    if room.windows.Some? {
      SpanAll(0, |room.windows.value|, WindowCall(room, room.windows.value), (c: Put) => ValidRotation(c.orientation.rotation));
    }
  }

  lemma WireframeFrames(room: RoomConfig, material: Material, cmp: Comparison)
    requires ValidRotation(room.rotation)
    ensures FramesValid(RoomWireframe(room, material, cmp))
  {
    EdgeFrames(room, material, cmp);
    MarkerFrames(room);
    FramesThree(Span(0, 12, EdgeCall(RoomOrientation(room), Edges(room.width, room.depth, room.height), material, cmp)),
                DoorMarkers(room), WindowMarkers(room));
  }

  lemma ConnectionFrames(config: HouseConfig, cmp: Comparison)
    ensures FramesValid(ConnectionLines(config, cmp))
  {
    if config.connections.Some? {
      var connections := config.connections.value;
      forall k | 0 <= k < |connections| ensures FramesValid(ConnectionCall(config.rooms, connections, cmp)(k)) {
        if Joins(config.rooms, connections[k]) {
          LineFrames(ZeroOrientation,
                     ConnectionSegment(config.rooms[connections[k].fromRoomIndex], config.rooms[connections[k].toRoomIndex]),
                     GoldBlock, cmp);
        }
      }
      SpanAll(0, |connections|, ConnectionCall(config.rooms, connections, cmp), (c: Put) => ValidRotation(c.orientation.rotation));
    }
  }

  /** When every room's rotation is a quarter turn, no call of any mode
      throws. */
  lemma ModeFrames(config: HouseConfig, options: VisualizerOptions, cmp: Comparison)
    requires forall k :: 0 <= k < |config.rooms| ==> ValidRotation(config.rooms[k].rotation)
    ensures FramesValid(ModeCalls(config, options, cmp))
  {
    var rooms := config.rooms;
    var P := (c: Put) => ValidRotation(c.orientation.rotation);
    match options.mode
    case Wireframe =>
      forall i | 0 <= i < |rooms| ensures FramesValid(WireframeOf(rooms, Glass, cmp)(i)) {
        WireframeFrames(rooms[i], Glass, cmp);
      }
      SpanAll(0, |rooms|, WireframeOf(rooms, Glass, cmp), P);
      ConnectionFrames(config, cmp);
    case Holographic =>
      forall i, c | 0 <= i < |rooms| && c in HolographicOf(rooms)(i) ensures P(c) {
        HolographicShell(rooms[i], GlassColors[i % 6], c);
      }
      SpanAll(0, |rooms|, HolographicOf(rooms), P);
    case Solid =>
      forall i | 0 <= i < |rooms| ensures FramesValid(WireframeOf(rooms, StoneBricks, cmp)(i)) {
        WireframeFrames(rooms[i], StoneBricks, cmp);
      }
      SpanAll(0, |rooms|, WireframeOf(rooms, StoneBricks, cmp), P);
    case ColoredBounds =>
      forall i | 0 <= i < |rooms| ensures FramesValid(BoundsOf(rooms)(i)) {
        RoomBoundsBlocks(rooms[i], BoundColors[i % 8]);
      }
      SpanAll(0, |rooms|, BoundsOf(rooms), P);
  }

  /** A house whose rooms all have quarter-turn rotations is previewed
      without an exception, every call written in order. */
  lemma VisualizeSucceeds(config: HouseConfig, options: VisualizerOptions, cmp: Comparison)
    requires forall k :: 0 <= k < |config.rooms| ==> ValidRotation(config.rooms[k].rotation)
    ensures OffsetRun(Empty, ModeCalls(config, options, cmp)) == (ApplyAll(Empty, ModeCalls(config, options, cmp)), None)
  {
    ModeFrames(config, options, cmp);
    var calls := ModeCalls(config, options, cmp);
    assert forall k :: 0 <= k < |calls| ==> calls[k] in calls;
    OffsetRunValid(Empty, calls);
  }

  // ---------------------------------------------------------------------
  // The renderers' loops

  /** The inner loop of a renderer's double loop: cells (r, c0) .. (r, c1 - 1). */
  method RunRow(r: int, c0: int, c1: int, g: (int, int) -> seq<Put>) returns (calls: seq<Put>)
    ensures calls == Span(c0, c1, GridCell(g, r))
  {
    calls := [];
    var c := c0;
    while c < c1
      invariant c == c0 || c0 <= c <= c1
      invariant calls == Span(c0, c, GridCell(g, r))
    {
      SpanNext(c0, c, GridCell(g, r));
      calls := calls + g(r, c);
      c := c + 1;
    }
    if c1 < c0 {
      assert Span(c0, c1, GridCell(g, r)) == [];
    }
  }

  /** A renderer's double loop: rows r0 .. r1 - 1, each over columns c0 .. c1 - 1. */
  method RunGrid(r0: int, r1: int, c0: int, c1: int, g: (int, int) -> seq<Put>) returns (calls: seq<Put>)
    ensures calls == Grid(r0, r1, c0, c1, g)
  {
    calls := [];
    var r := r0;
    while r < r1
      invariant r == r0 || r0 <= r <= r1
      invariant calls == Span(r0, r, GridRow(c0, c1, g))
    {
      SpanNext(r0, r, GridRow(c0, c1, g));
      var row := RunRow(r, c0, c1, g);
      calls := calls + row;
      r := r + 1;
    }
    if r1 < r0 {
      assert Span(r0, r1, GridRow(c0, c1, g)) == [];
    }
  }

  /** The edge loop of `renderRoomWireframe`: one line per segment. */
  method DrawEdges(o: Orientation, edges: seq<Segment>, material: Material, cmp: Comparison) returns (calls: seq<Put>)
    ensures calls == Span(0, |edges|, EdgeCall(o, edges, material, cmp))
  {
    calls := [];
    for k := 0 to |edges|
      invariant calls == Span(0, k, EdgeCall(o, edges, material, cmp))
    {
      SpanNext(0, k, EdgeCall(o, edges, material, cmp));
      var line := DrawLine(o, edges[k], material, cmp);
      calls := calls + line;
    }
  }

  /** `renderDoorMarkers`: one marker per listed door. */
  method MarkDoors(room: RoomConfig) returns (calls: seq<Put>)
    ensures calls == DoorMarkers(room)
  {
    calls := [];
    match room.doors {
      case None =>
      case Some(doors) =>
        for k := 0 to |doors|
          invariant calls == Span(0, k, DoorCall(room, doors))
        {
          SpanNext(0, k, DoorCall(room, doors));
          calls := calls + DoorMarker(room, doors[k]);
        }
    }
  }

  /** `renderWindowMarkers`: one marker per listed window. */
  method MarkWindows(room: RoomConfig) returns (calls: seq<Put>)
    ensures calls == WindowMarkers(room)
  {
    calls := [];
    match room.windows {
      case None =>
      case Some(windows) =>
        for k := 0 to |windows|
          invariant calls == Span(0, k, WindowCall(room, windows))
        {
          SpanNext(0, k, WindowCall(room, windows));
          calls := calls + WindowMarker(room, windows[k]);
        }
    }
  }

  /** `renderRoomWireframe`: the twelve edges, then the door and window markers. */
  method RenderRoomWireframe(room: RoomConfig, material: Material, cmp: Comparison) returns (calls: seq<Put>)
    ensures calls == RoomWireframe(room, material, cmp)
  {
    var edges := DrawEdges(RoomOrientation(room), Edges(room.width, room.depth, room.height), material, cmp);
    var doors := MarkDoors(room);
    var windows := MarkWindows(room);
    calls := edges + doors + windows;
  }

  /** `renderRoomHolographic`: front and back walls, side walls, floor. */
  method RenderRoomHolographic(room: RoomConfig, material: Material) returns (calls: seq<Put>)
    ensures calls == RoomHolographic(room, material)
  {
    var walls := RunGrid(0, room.height + 1, 0, room.width, FrontBackCell(room, material));
    var sides := RunGrid(0, room.height + 1, 0, room.depth, SideCell(room, material));
    var floor := RunGrid(0, room.width, 0, room.depth, FloorCell(room));
    calls := walls + sides + floor;
  }

  /** `drawCornerMarker`: the three nested loops over the 2 x 2 x 2 cube. */
  method DrawCornerMarker(o: Orientation, x: int, y: int, z: int, material: Material) returns (calls: seq<Put>)
    ensures calls == CornerMarker(o, x, y, z, material)
  {
    calls := [];
    for dx := 0 to 2
      invariant calls == CornerMarker(o, x, y, z, material)[..4 * dx]
    {
      for dy := 0 to 2
        invariant calls == CornerMarker(o, x, y, z, material)[..4 * dx + 2 * dy]
      {
        for dz := 0 to 2
          invariant calls == CornerMarker(o, x, y, z, material)[..4 * dx + 2 * dy + dz]
        {
          CubeAt(o, x, y, z, material, dx, dy, dz);
          calls := calls + [Put(o, Point(o.point.x + x + dx, o.point.y + y + dy, o.point.z + z + dz), material)];
        }
      }
    }
  }

  /** `renderRoomBounds`: the four corner cubes. */
  method RenderRoomBounds(room: RoomConfig, material: Material) returns (calls: seq<Put>)
    ensures calls == RoomBounds(room, material)
  {
    var a := DrawCornerMarker(RoomOrientation(room), 0, 0, 0, material);
    var b := DrawCornerMarker(RoomOrientation(room), room.width - 2, 0, 0, material);
    var c := DrawCornerMarker(RoomOrientation(room), 0, 0, room.depth - 2, material);
    var d := DrawCornerMarker(RoomOrientation(room), room.width - 2, 0, room.depth - 2, material);
    calls := a + b + c + d;
  }

  /** `renderConnections`: a line per connection whose rooms both exist. */
  method RenderConnections(config: HouseConfig, cmp: Comparison) returns (calls: seq<Put>)
    ensures calls == ConnectionLines(config, cmp)
  {
    calls := [];
    match config.connections {
      case None =>
      case Some(connections) =>
        for k := 0 to |connections|
          invariant calls == Span(0, k, ConnectionCall(config.rooms, connections, cmp))
        {
          SpanNext(0, k, ConnectionCall(config.rooms, connections, cmp));
          var connection := connections[k];
          if 0 <= connection.fromRoomIndex < |config.rooms| && 0 <= connection.toRoomIndex < |config.rooms| {
            var line := DrawLine(ZeroOrientation,
                                 ConnectionSegment(config.rooms[connection.fromRoomIndex], config.rooms[connection.toRoomIndex]),
                                 GoldBlock, cmp);
            calls := calls + line;
          }
        }
    }
  }

  /** The `forEach` over the rooms in wireframe and solid mode. */
  method RenderWireframeRooms(rooms: seq<RoomConfig>, material: Material, cmp: Comparison) returns (calls: seq<Put>)
    ensures calls == Span(0, |rooms|, WireframeOf(rooms, material, cmp))
  {
    calls := [];
    for i := 0 to |rooms|
      invariant calls == Span(0, i, WireframeOf(rooms, material, cmp))
    {
      SpanNext(0, i, WireframeOf(rooms, material, cmp));
      var room := RenderRoomWireframe(rooms[i], material, cmp);
      calls := calls + room;
    }
  }

  /** `renderHolographic`: room i in glass colour i mod 6. */
  method RenderHolographicRooms(rooms: seq<RoomConfig>) returns (calls: seq<Put>)
    ensures calls == Span(0, |rooms|, HolographicOf(rooms))
  {
    calls := [];
    for i := 0 to |rooms|
      invariant calls == Span(0, i, HolographicOf(rooms))
    {
      SpanNext(0, i, HolographicOf(rooms));
      var room := RenderRoomHolographic(rooms[i], GlassColors[i % 6]);
      calls := calls + room;
    }
  }

  /** `renderColoredBounds`: room i in wool colour i mod 8. */
  method RenderBoundsRooms(rooms: seq<RoomConfig>) returns (calls: seq<Put>)
    ensures calls == Span(0, |rooms|, BoundsOf(rooms))
  {
    calls := [];
    for i := 0 to |rooms|
      invariant calls == Span(0, i, BoundsOf(rooms))
    {
      SpanNext(0, i, BoundsOf(rooms));
      var room := RenderRoomBounds(rooms[i], BoundColors[i % 8]);
      calls := calls + room;
    }
  }

  /** The `switch` of `visualize`: the calls of the selected mode's renderer. */
  method RenderMode(config: HouseConfig, options: VisualizerOptions, cmp: Comparison) returns (calls: seq<Put>)
    ensures calls == ModeCalls(config, options, cmp)
  {
    match options.mode {
      case Wireframe =>
        calls := RenderWireframeRooms(config.rooms, Glass, cmp);
        if options.highlightConnections == Some(true) && config.connections.Some? {
          var lines := RenderConnections(config, cmp);
          calls := calls + lines;
        }
      case Holographic =>
        calls := RenderHolographicRooms(config.rooms);
      case Solid =>
        calls := RenderWireframeRooms(config.rooms, StoneBricks, cmp);
      case ColoredBounds =>
        calls := RenderBoundsRooms(config.rooms);
    }
  }

  /** Issues the calls in order on the buffer; the first one that throws
      ends the run, and its error is returned. */
  method PutAll(buffer: BlockBuffer, calls: seq<Put>) returns (error: Option<Error>)
    requires buffer.Valid()
    modifies buffer
    ensures buffer.Valid()
    ensures (buffer.State(), error) == OffsetRun(old(buffer.State()), calls)
  {
    error := None;
    var k := 0;
    while k < |calls| && error.None?
      invariant 0 <= k <= |calls| && buffer.Valid()
      invariant error.None? ==> OffsetRun(old(buffer.State()), calls) == OffsetRun(buffer.State(), calls[k..])
      invariant error.Some? ==> (buffer.State(), error) == OffsetRun(old(buffer.State()), calls)
    {
      ghost var before := buffer.State();
      error := buffer.PutOffset(calls[k].local, calls[k].orientation, calls[k].material);
      assert calls[k..] == [calls[k]] + calls[k + 1..];
      OffsetRunAppend(before, [calls[k]], calls[k + 1..]);
      k := k + 1;
    }
  }

  /** `visualize`: a fresh buffer holding the selected mode's blocks, or
      the exception of the first call that threw. */
  method Visualize(config: HouseConfig, options: VisualizerOptions, cmp: Comparison) returns (buffer: BlockBuffer, error: Option<Error>)
    ensures fresh(buffer) && buffer.Valid()
    ensures (buffer.State(), error) == OffsetRun(Empty, ModeCalls(config, options, cmp))
  {
    buffer := new BlockBuffer();
    var calls := RenderMode(config, options, cmp);
    error := PutAll(buffer, calls);
  }

  // ---------------------------------------------------------------------
  // The bounding box

  datatype Extent = Extent(width: int, height: int, depth: int)

  datatype BoundingBox = BoundingBox(min: Position, max: Position, dimensions: Extent)

  /** The near and far faces of a room along an axis. */
  datatype Axis = XAxis | YAxis | ZAxis

  function Near(room: RoomConfig, axis: Axis): int
  {
    match axis
    case XAxis => room.position.x
    case YAxis => room.position.y
    case ZAxis => room.position.z
  }

  function Far(room: RoomConfig, axis: Axis): int
  {
    match axis
    case XAxis => room.position.x + room.width
    case YAxis => room.position.y + room.height
    case ZAxis => room.position.z + room.depth
  }

  function Coordinate(p: Position, axis: Axis): int
  {
    match axis
    case XAxis => p.x
    case YAxis => p.y
    case ZAxis => p.z
  }

  /** v is the least near face along the axis over the rooms. */
  predicate LeastNear(v: int, rooms: seq<RoomConfig>, axis: Axis)
  {
    (forall k :: 0 <= k < |rooms| ==> v <= Near(rooms[k], axis)) &&
    exists k :: 0 <= k < |rooms| && Near(rooms[k], axis) == v
  }

  /** v is the greatest far face along the axis over the rooms. */
  predicate GreatestFar(v: int, rooms: seq<RoomConfig>, axis: Axis)
  {
    (forall k :: 0 <= k < |rooms| ==> Far(rooms[k], axis) <= v) &&
    exists k :: 0 <= k < |rooms| && Far(rooms[k], axis) == v
  }

  /** `calculateBoundingBox`: all zeros for a house without rooms; otherwise
      the least corner and the greatest far corner over the rooms, and their
      difference. The running minima and maxima start from the first room,
      which is where `Math.min(Infinity, x)` puts them after one step. */
  method CalculateBoundingBox(config: HouseConfig) returns (box: BoundingBox)
    ensures |config.rooms| == 0 ==> box == BoundingBox(Position(0, 0, 0), Position(0, 0, 0), Extent(0, 0, 0))
    ensures |config.rooms| > 0 ==>
      LeastNear(box.min.x, config.rooms, XAxis) && LeastNear(box.min.y, config.rooms, YAxis) &&
      LeastNear(box.min.z, config.rooms, ZAxis) && GreatestFar(box.max.x, config.rooms, XAxis) &&
      GreatestFar(box.max.y, config.rooms, YAxis) && GreatestFar(box.max.z, config.rooms, ZAxis)
    ensures box.dimensions == Extent(box.max.x - box.min.x, box.max.y - box.min.y, box.max.z - box.min.z)
  {
    var rooms := config.rooms;
    if |rooms| == 0 {
      return BoundingBox(Position(0, 0, 0), Position(0, 0, 0), Extent(0, 0, 0));
    }
    var minX, minY, minZ := rooms[0].position.x, rooms[0].position.y, rooms[0].position.z;
    var maxX, maxY, maxZ := rooms[0].position.x + rooms[0].width, rooms[0].position.y + rooms[0].height, rooms[0].position.z + rooms[0].depth;
    // the room each running value was taken from
    ghost var nx, ny, nz, fx, fy, fz := 0, 0, 0, 0, 0, 0;
    for i := 1 to |rooms|
      invariant 0 <= nx < i && Near(rooms[nx], XAxis) == minX && 0 <= ny < i && Near(rooms[ny], YAxis) == minY
      invariant 0 <= nz < i && Near(rooms[nz], ZAxis) == minZ && 0 <= fx < i && Far(rooms[fx], XAxis) == maxX
      invariant 0 <= fy < i && Far(rooms[fy], YAxis) == maxY && 0 <= fz < i && Far(rooms[fz], ZAxis) == maxZ
      invariant forall k :: 0 <= k < i ==>
        minX <= Near(rooms[k], XAxis) && minY <= Near(rooms[k], YAxis) && minZ <= Near(rooms[k], ZAxis) &&
        Far(rooms[k], XAxis) <= maxX && Far(rooms[k], YAxis) <= maxY && Far(rooms[k], ZAxis) <= maxZ
    {
      var room := rooms[i];
      if room.position.x < minX { nx := i; }
      if room.position.y < minY { ny := i; }
      if room.position.z < minZ { nz := i; }
      if room.position.x + room.width > maxX { fx := i; }
      if room.position.y + room.height > maxY { fy := i; }
      if room.position.z + room.depth > maxZ { fz := i; }
      minX := Min(minX, room.position.x);
      minY := Min(minY, room.position.y);
      minZ := Min(minZ, room.position.z);
      maxX := Max(maxX, room.position.x + room.width);
      maxY := Max(maxY, room.position.y + room.height);
      maxZ := Max(maxZ, room.position.z + room.depth);
    }
    box := BoundingBox(Position(minX, minY, minZ), Position(maxX, maxY, maxZ),
                       Extent(maxX - minX, maxY - minY, maxZ - minZ));
  }
}
