// The prefab tree (scripts/prefabs/Prefab.ts): a node draws itself, then
// builds each child in insertion order. Children are values: they are
// created by the builders of their parent and never shared.
module Prefabs {
  import opened Errors
  import opened Geometry
  import opened Blocks
  import opened Puts
  import opened PrefabBase
  import Walls
  import Floors
  import Doors
  import Windows
  import Staircases
  import Roofs
  import PrefabFactory

  datatype RoomParams = RoomParams(orientation: Orientation, width: int, depth: int, height: int)

  /** A constructed room (scripts/prefabs/Room.ts): every dimension at
      least 1. */
  type Room = r: RoomParams | r.width >= 1 && r.depth >= 1 && r.height >= 1
    witness RoomParams(ZeroOrientation, 1, 1, 1)

  /** The kinds of prefab, each with what it was constructed from. */
  datatype Shape =
    | WallShape(wall: Walls.Wall)
    | FloorShape(floor: Floors.Floor)
    | DoorShape(door: Doors.Door)
    | WindowShape(window: Windows.Window)
    | StairsShape(stairs: Staircases.Stairs)
    | RoofShape(roof: Roofs.Roof)
    | AnchorShape(anchor: Orientation)
    | RoomShape(room: Room)

  datatype Node = Node(shape: Shape, children: seq<Node>)

  /** The orientation a prefab was constructed with. */
  function OwnOrientation(s: Shape): Orientation
  {
    match s
    case WallShape(w) => w.orientation
    case FloorShape(f) => f.orientation
    case DoorShape(d) => d.orientation
    case WindowShape(w) => w.orientation
    case StairsShape(st) => st.orientation
    case RoofShape(r) => r.orientation
    case AnchorShape(o) => o
    case RoomShape(r) => r.orientation
  }

  /** `draw(put)` of each kind against the callback. Anchors and rooms are
      containers and draw nothing. */
  function DrawTrace(s: Shape, sink: Sink): Trace
  {
    match s
    case WallShape(w) => Run(Walls.DrawSpec(w), sink)
    case FloorShape(f) => Run(Floors.DrawSpec(f), sink)
    case DoorShape(d) => Run(Doors.DrawSpec(d), sink)
    case WindowShape(w) => Windows.DrawSpec(w, sink)
    case StairsShape(st) => Run(Staircases.DrawSpec(st), sink)
    case RoofShape(r) => Run(Roofs.DrawSpec(r), sink)
    case AnchorShape(_) => Trace([], None)
    case RoomShape(_) => Trace([], None)
  }

  /** `getOrientationForChildPrefab()` of each kind. */
  function ChildOrientation(s: Shape): (r: Result<Orientation>)
    ensures s.AnchorShape? || s.RoomShape? || s.DoorShape? ==> r == Success(OwnOrientation(s))
  {
    match s
    case WallShape(w) => Walls.ChildOrientation(w)
    case FloorShape(f) => Floors.ChildOrientation(f)
    case DoorShape(d) => Success(Doors.ChildOrientation(d))
    case WindowShape(w) => Windows.ChildOrientation(w)
    case StairsShape(st) => Staircases.ChildOrientation(st)
    case RoofShape(r) => Roofs.ChildOrientation(r)
    case AnchorShape(o) => Success(o)
    case RoomShape(r) => Success(r.orientation)
  }

  /** The run of a first part followed, if it ended normally, by a second. */
  function AndThen(a: Trace, b: Trace): (t: Trace)
    ensures a.error.Some? ==> t == a
    ensures a.error.None? ==> t.puts == a.puts + b.puts && t.error == b.error
  {
    if a.error.Some? then a else Trace(a.puts + b.puts, b.error)
  }

  lemma AndThenAssociative(a: Trace, b: Trace, c: Trace)
    ensures AndThen(AndThen(a, b), c) == AndThen(a, AndThen(b, c))
  {
  }

  const Done := Trace([], None)

  /** `build(orientation, put)`: the node's draw, then each child's build.
      The child orientation is computed afresh for every child, so its
      error surfaces before the first child is built; the orientation
      argument of `build` is never used, so it is not a parameter here. */
  function BuildTrace(n: Node, sink: Sink): Trace
    decreases n, 1
  {
    AndThen(DrawTrace(n.shape, sink), BuildChildren(n, 0, sink))
  }

  /** The children of n from the i-th on. */
  function BuildChildren(n: Node, i: nat, sink: Sink): Trace
    requires i <= |n.children|
    decreases n, 0, |n.children| - i
  {
    if i == |n.children| then Done
    else match ChildOrientation(n.shape)
      case Failure(e) => Trace([], Some(e))
      case Success(_) => AndThen(BuildTrace(n.children[i], sink), BuildChildren(n, i + 1, sink))
  }

  // ---- pre-order --------------------------------------------------------

  /** Every node in the tree, each before its children, children in
      insertion order. */
  function PreOrder(n: Node): seq<Shape>
    decreases n, 1
  {
    [n.shape] + PreOrderFrom(n, 0)
  }

  function PreOrderFrom(n: Node, i: nat): seq<Shape>
    requires i <= |n.children|
    decreases n, 0, |n.children| - i
  {
    if i == |n.children| then [] else PreOrder(n.children[i]) + PreOrderFrom(n, i + 1)
  }

  /** The draws of a sequence of prefabs, one after another, stopping at
      the first that throws. */
  function DrawAll(shapes: seq<Shape>, sink: Sink): Trace
  {
    if shapes == [] then Done else AndThen(DrawTrace(shapes[0], sink), DrawAll(shapes[1..], sink))
  }

  lemma {:induction false} DrawAllAppend(a: seq<Shape>, b: seq<Shape>, sink: Sink)
    ensures DrawAll(a + b, sink) == AndThen(DrawAll(a, sink), DrawAll(b, sink))
  {
    if a == [] {
      assert a + b == b;
    } else {
      assert (a + b)[0] == a[0];
      assert (a + b)[1..] == a[1..] + b;
      DrawAllAppend(a[1..], b, sink);
      AndThenAssociative(DrawTrace(a[0], sink), DrawAll(a[1..], sink), DrawAll(b, sink));
    }
  }

  /** Every node with children can say where they go. */
  predicate Linked(n: Node)
    decreases n
  {
    && (|n.children| > 0 ==> ChildOrientation(n.shape).Success?)
    && forall i :: 0 <= i < |n.children| ==> Linked(n.children[i])
  }

  /** When every child orientation can be computed, building a tree is
      drawing its nodes in pre-order: each node before any of its children,
      children in insertion order. */
  lemma {:induction false} BuildIsPreOrder(n: Node, sink: Sink)
    requires Linked(n)
    ensures BuildTrace(n, sink) == DrawAll(PreOrder(n), sink)
    decreases n, 1
  {
    BuildChildrenIsPreOrder(n, 0, sink);
    assert PreOrder(n) == [n.shape] + PreOrderFrom(n, 0);
    assert ([n.shape] + PreOrderFrom(n, 0))[1..] == PreOrderFrom(n, 0);
  }

  lemma {:induction false} BuildChildrenIsPreOrder(n: Node, i: nat, sink: Sink)
    requires Linked(n) && i <= |n.children|
    ensures BuildChildren(n, i, sink) == DrawAll(PreOrderFrom(n, i), sink)
    decreases n, 0, |n.children| - i
  {
    if i < |n.children| {
      BuildIsPreOrder(n.children[i], sink);
      BuildChildrenIsPreOrder(n, i + 1, sink);
      DrawAllAppend(PreOrder(n.children[i]), PreOrderFrom(n, i + 1), sink);
    }
  }

  /** The builds of sibling trees one after another. */
  function BuildAll(nodes: seq<Node>, sink: Sink): Trace
  {
    if nodes == [] then Done else AndThen(BuildTrace(nodes[0], sink), BuildAll(nodes[1..], sink))
  }

  /** A container that draws nothing and passes its own orientation on
      builds exactly its children, in insertion order. */
  lemma {:induction false} ContainerBuild(n: Node, sink: Sink)
    requires n.shape.AnchorShape? || n.shape.RoomShape?
    ensures BuildTrace(n, sink) == BuildAll(n.children, sink)
  {
    ContainerChildren(n, 0, sink);
    assert n.children[0..] == n.children;
  }

  lemma {:induction false} ContainerChildren(n: Node, i: nat, sink: Sink)
    requires n.shape.AnchorShape? || n.shape.RoomShape?
    requires i <= |n.children|
    ensures BuildChildren(n, i, sink) == BuildAll(n.children[i..], sink)
    decreases |n.children| - i
  {
    if i < |n.children| {
      ContainerChildren(n, i + 1, sink);
      assert n.children[i..][0] == n.children[i];
      assert n.children[i..][1..] == n.children[i + 1..];
    }
  }

  /** A lone door puts exactly its one block. */
  lemma LoneDoor(d: Doors.Door, sink: Sink)
    ensures BuildTrace(Node(DoorShape(d), []), sink) == Deliver([Put(d.orientation, Origin, d.doorType)], sink)
  {
    var t := Deliver([Put(d.orientation, Origin, d.doorType)], sink);
    DeliverFacts([Put(d.orientation, Origin, d.doorType)], sink);
  }

  // ---- the objects ------------------------------------------------------

  /** A prefab object: what it was constructed as, and the children it has
      been given so far. */
  class Prefab {
    const shape: Shape
    var children: seq<Node>

    constructor (shape: Shape)
      ensures this.shape == shape && children == []
    {
      this.shape := shape;
      children := [];
    }

    function Tree(): Node
      reads this
    {
      Node(shape, children)
    }

    /** `addWall(material, length, rotation)`: a length below 1 is refused
        and nothing is added; otherwise exactly one wall is appended, built
        at this prefab's own orientation whatever the rotation and whatever
        the previous children are, and the prefab itself is returned. */
    method AddWall(material: Material, length: int, rotation: int := 0) returns (r: Result<Prefab>)
      modifies this
      ensures length < 1 ==> r == Failure(WallTooShort) && children == old(children)
      ensures length >= 1 ==> r == Success(this)
      ensures length >= 1 ==> children == old(children) + [Node(WallShape(Walls.WallParams(OwnOrientation(shape), material, length)), [])]
    {
      if length < 1 {
        return Failure(WallTooShort);
      }
      var wall := PrefabFactory.CreateWall(OwnOrientation(shape), material, length, rotation);
      assert wall.Success?;
      children := children + [Node(WallShape(wall.value), [])];
      return Success(this);
    }

    /** `build(orientation, put)`: the orientation argument is ignored. */
    method Build(orientation: Orientation, sink: Sink) returns (t: Trace)
      ensures t == BuildTrace(Tree(), sink)
    {
      t := BuildNode(Tree(), sink);
    }
  }

  /** The draw of one prefab, making its calls through the callback. */
  method DrawShape(s: Shape, sink: Sink) returns (t: Trace)
    ensures t == DrawTrace(s, sink)
  {
    match s {
      case WallShape(w) =>
        var d := Walls.Draw(w);
        t := RunDrawn(d, sink);
      case FloorShape(f) =>
        var d := Floors.Draw(f);
        t := RunDrawn(d, sink);
      case DoorShape(door) =>
        t := RunDrawn(Doors.DrawSpec(door), sink);
      case WindowShape(w) =>
        t := Windows.Draw(w, sink);
      case StairsShape(st) =>
        var d := Staircases.Draw(st);
        t := RunDrawn(d, sink);
      case RoofShape(r) =>
        var d := Roofs.Draw(r);
        t := RunDrawn(d, sink);
      case AnchorShape(_) =>
        t := Done;
      case RoomShape(_) =>
        t := Done;
    }
  }

  method RunDrawn(d: Drawn, sink: Sink) returns (t: Trace)
    ensures t == Run(d, sink)
  {
    t := Issue(d.calls, sink);
    if t.error.None? {
      t := Trace(t.puts, d.error);
    }
  }

  lemma ChildrenRefused(n: Node, i: nat, sink: Sink)
    requires i < |n.children| && ChildOrientation(n.shape).Failure?
    ensures BuildChildren(n, i, sink) == Trace([], Some(ChildOrientation(n.shape).error))
  {
  }

  lemma ChildrenStep(n: Node, i: nat, sink: Sink)
    requires i < |n.children| && ChildOrientation(n.shape).Success?
    ensures BuildChildren(n, i, sink) == AndThen(BuildTrace(n.children[i], sink), BuildChildren(n, i + 1, sink))
  {
  }

  /** The pre-order traversal: draw, then the children. */
  method BuildNode(n: Node, sink: Sink) returns (t: Trace)
    ensures t == BuildTrace(n, sink)
    decreases n, 1
  {
    t := DrawShape(n.shape, sink);
    if t.error.None? {
      var rest := BuildChildNodes(n, sink);
      t := Trace(t.puts + rest.puts, rest.error);
    }
  }

  /** The loop over the children, in insertion order. */
  method BuildChildNodes(n: Node, sink: Sink) returns (t: Trace)
    ensures t == BuildChildren(n, 0, sink)
    decreases n, 0
  {
    var puts: seq<Put> := [];
    for i := 0 to |n.children|
      invariant BuildChildren(n, 0, sink).puts == puts + BuildChildren(n, i, sink).puts
      invariant BuildChildren(n, 0, sink).error == BuildChildren(n, i, sink).error
    {
      var at := ChildOrientation(n.shape);
      if at.Failure? {
        ChildrenRefused(n, i, sink);
        return Trace(puts, Some(at.error));
      }
      var child := BuildNode(n.children[i], sink);
      ChildrenStep(n, i, sink);
      if child.error.Some? {
        return Trace(puts + child.puts, child.error);
      }
      puts := puts + child.puts;
    }
    return Trace(puts, None);
  }
}
