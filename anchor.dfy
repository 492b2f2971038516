// A container that draws nothing and passes its own orientation on
// (scripts/prefabs/Anchor.ts).
module Anchors {
  import opened Errors
  import opened Geometry
  import opened Blocks
  import opened Puts
  import opened PrefabBase
  import opened Prefabs
  import Walls
  import Doors
  import BlockBuffers

  method New(orientation: Orientation) returns (a: Prefab)
    ensures fresh(a) && a.shape == AnchorShape(orientation) && a.children == []
  {
    a := new Prefab(AnchorShape(orientation));
  }

  /** `addDoor(type)`: exactly one door, at the anchor's own orientation,
      appended after the earlier children; the anchor itself is returned. */
  method AddDoor(a: Prefab, doorType: Material) returns (r: Prefab)
    requires a.shape.AnchorShape?
    modifies a
    ensures r == a
    ensures a.children == old(a.children) + [Node(DoorShape(Doors.Door(a.shape.anchor, doorType)), [])]
  {
    a.children := a.children + [Node(DoorShape(Doors.Door(a.shape.anchor, doorType)), [])];
    return a;
  }

  /** Building an anchor builds its children in insertion order, with
      nothing from the anchor itself. */
  lemma BuildsChildren(o: Orientation, children: seq<Node>, sink: Sink)
    ensures BuildTrace(Node(AnchorShape(o), children), sink) == BuildAll(children, sink)
  {
    ContainerBuild(Node(AnchorShape(o), children), sink);
  }

  /** Walls added to an anchor one after another all start at the anchor:
      two walls of the same material and length, the second one given a
      quarter-turn rotation, issue the very same puts twice. */
  lemma WallsDoNotChain(o: Orientation, material: Material, length: int, sink: Sink)
    requires length >= 1 && ValidRotation(o.rotation)
    requires forall c: Put :: c.orientation == o ==> sink(c).None?
    ensures var w := Node(WallShape(Walls.WallParams(o, material, length)), []);
      var calls := Walls.Calls(Walls.WallParams(o, material, length), QuarterOf(o.rotation).value);
      BuildTrace(Node(AnchorShape(o), [w, w]), sink) == Trace(calls + calls, None)
  {
    var wall: Walls.Wall := Walls.WallParams(o, material, length);
    var w := Node(WallShape(wall), []);
    var calls := Walls.Calls(wall, QuarterOf(o.rotation).value);
    BuildsChildren(o, [w, w], sink);
    Walls.CallsShape(wall, QuarterOf(o.rotation).value);
    DeliverFacts(calls, sink);
    assert Walls.DrawSpec(wall) == Drawn(calls, None);
    assert DrawTrace(w.shape, sink) == Trace(calls, None);
    assert BuildChildren(w, 0, sink) == Done;
    assert BuildTrace(w, sink) == Trace(calls, None);
    assert [w, w][1..] == [w];
    assert [w][1..] == [];
    assert BuildAll([w], sink) == Trace(calls, None);
  }

  /** An anchor at (1, 2, 3) facing 0 with a wall of three blocks: put
      through the buffer, the wall fills (2, 2, 3), (3, 2, 3) and (4, 2, 3),
      and a second wall added with rotation 90 fills the same three cells
      again. */
  lemma WallExample(material: Material)
    ensures var o := Orientation(Point(1, 2, 3), 0);
      var calls := Walls.Calls(Walls.WallParams(o, material, 3), Q0);
      && BuildTrace(Node(AnchorShape(o), [Node(WallShape(Walls.WallParams(o, material, 3)), []),
                                          Node(WallShape(Walls.WallParams(o, material, 3)), [])]),
                    BlockBuffers.OffsetError) == Trace(calls + calls, None)
      && |calls| == 3
      && BlockBuffers.OffsetTarget(calls[0].local, o) == Success(Point(2, 2, 3))
      && BlockBuffers.OffsetTarget(calls[1].local, o) == Success(Point(3, 2, 3))
      && BlockBuffers.OffsetTarget(calls[2].local, o) == Success(Point(4, 2, 3))
  {
    var o := Orientation(Point(1, 2, 3), 0);
    var wall: Walls.Wall := Walls.WallParams(o, material, 3);
    WallsDoNotChain(o, material, 3, BlockBuffers.OffsetError);
    Walls.CallsShape(wall, Q0);
  }
}
