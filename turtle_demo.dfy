// The demo in scripts/TurtleBuilder.demo.test.ts: a 7 x 7 oak floor, four
// stone brick walls, a door, a tiny room, a second door, a second tiny room
// and a slab roof two levels up, checked against the listing the test
// compares with. The test sorts both sides before comparing, so they are
// compared here as multisets. The run is proved from any starting cell;
// the test starts at (0, 64, 0).
module TurtleDemos {
  import opened JsMath
  import opened Geometry
  import opened Blocks
  import opened Spans
  import opened Turtles
  import opened TinyRooms
  import opened TurtleRoofs

  /** `TurtleBuilder.at(new Point(0, 64, 0))`. */
  const DemoOrigin: Point := Point(0, 64, 0)

  const FirstDoorCalls: seq<Call> := [Forward(3), Door(AcaciaDoor)]

  const SecondDoorCalls: seq<Call> := [Right(2), Door(BirchDoor)]

  /** The demo's chain of calls, in order: the floor, the stone walls, the
      first door, a tiny room, the second door, a tiny room and the roof
      inside a layer. */
  const DemoCalls: seq<Call> := DemoCallsSized(7, 7, 7, 3, 7, 7)

  // ---- the listing the test expects ------------------------------------------

  /** The OakPlanks lines, one column of the floor per row. */
  const OakListed: seq<Placement> :=
    [
      Placement(Point(0, 64, 0), OakPlanks), Placement(Point(0, 64, 1), OakPlanks),
      Placement(Point(0, 64, 2), OakPlanks), Placement(Point(0, 64, 3), OakPlanks),
      Placement(Point(0, 64, 4), OakPlanks), Placement(Point(0, 64, 5), OakPlanks),
      Placement(Point(0, 64, 6), OakPlanks)]
    + [
      Placement(Point(1, 64, 0), OakPlanks), Placement(Point(1, 64, 1), OakPlanks),
      Placement(Point(1, 64, 2), OakPlanks), Placement(Point(1, 64, 3), OakPlanks),
      Placement(Point(1, 64, 4), OakPlanks), Placement(Point(1, 64, 5), OakPlanks),
      Placement(Point(1, 64, 6), OakPlanks)]
    + [
      Placement(Point(2, 64, 0), OakPlanks), Placement(Point(2, 64, 1), OakPlanks),
      Placement(Point(2, 64, 2), OakPlanks), Placement(Point(2, 64, 3), OakPlanks),
      Placement(Point(2, 64, 4), OakPlanks), Placement(Point(2, 64, 5), OakPlanks),
      Placement(Point(2, 64, 6), OakPlanks)]
    + [
      Placement(Point(3, 64, 0), OakPlanks), Placement(Point(3, 64, 1), OakPlanks),
      Placement(Point(3, 64, 2), OakPlanks), Placement(Point(3, 64, 3), OakPlanks),
      Placement(Point(3, 64, 4), OakPlanks), Placement(Point(3, 64, 5), OakPlanks),
      Placement(Point(3, 64, 6), OakPlanks)]
    + [
      Placement(Point(4, 64, 0), OakPlanks), Placement(Point(4, 64, 1), OakPlanks),
      Placement(Point(4, 64, 2), OakPlanks), Placement(Point(4, 64, 3), OakPlanks),
      Placement(Point(4, 64, 4), OakPlanks), Placement(Point(4, 64, 5), OakPlanks),
      Placement(Point(4, 64, 6), OakPlanks)]
    + [
      Placement(Point(5, 64, 0), OakPlanks), Placement(Point(5, 64, 1), OakPlanks),
      Placement(Point(5, 64, 2), OakPlanks), Placement(Point(5, 64, 3), OakPlanks),
      Placement(Point(5, 64, 4), OakPlanks), Placement(Point(5, 64, 5), OakPlanks),
      Placement(Point(5, 64, 6), OakPlanks)]
    + [
      Placement(Point(6, 64, 0), OakPlanks), Placement(Point(6, 64, 1), OakPlanks),
      Placement(Point(6, 64, 2), OakPlanks), Placement(Point(6, 64, 3), OakPlanks),
      Placement(Point(6, 64, 4), OakPlanks), Placement(Point(6, 64, 5), OakPlanks),
      Placement(Point(6, 64, 6), OakPlanks)]

  /** The StoneBricks lines. */
  const StoneListed: seq<Placement> :=
    [
      Placement(Point(0, 64, 0), StoneBricks), Placement(Point(0, 64, 1), StoneBricks),
      Placement(Point(0, 64, 2), StoneBricks), Placement(Point(0, 64, 3), StoneBricks),
      Placement(Point(0, 64, 4), StoneBricks), Placement(Point(0, 64, 5), StoneBricks),
      Placement(Point(0, 64, 6), StoneBricks), Placement(Point(0, 64, 7), StoneBricks),
      Placement(Point(1, 64, 0), StoneBricks), Placement(Point(1, 64, 7), StoneBricks),
      Placement(Point(2, 64, 0), StoneBricks), Placement(Point(2, 64, 7), StoneBricks),
      Placement(Point(3, 64, 0), StoneBricks), Placement(Point(3, 64, 7), StoneBricks),
      Placement(Point(4, 64, 0), StoneBricks), Placement(Point(4, 64, 7), StoneBricks),
      Placement(Point(5, 64, 0), StoneBricks), Placement(Point(5, 64, 7), StoneBricks),
      Placement(Point(6, 64, 0), StoneBricks), Placement(Point(6, 64, 7), StoneBricks),
      Placement(Point(7, 64, 0), StoneBricks), Placement(Point(7, 64, 1), StoneBricks),
      Placement(Point(7, 64, 2), StoneBricks), Placement(Point(7, 64, 3), StoneBricks),
      Placement(Point(7, 64, 4), StoneBricks), Placement(Point(7, 64, 5), StoneBricks),
      Placement(Point(7, 64, 6), StoneBricks), Placement(Point(7, 64, 7), StoneBricks)]

  /** The two door lines. */
  const DoorsListed: seq<Placement> :=
    [
      Placement(Point(-3, 64, 0), AcaciaDoor), Placement(Point(-6, 64, 0), BirchDoor)]

  /** The Cobblestone lines: both tiny rooms, interleaved. */
  const CobbleListed: seq<Placement> :=
    [
      Placement(Point(-4, 64, 0), Cobblestone), Placement(Point(-4, 64, 1), Cobblestone),
      Placement(Point(-4, 64, 2), Cobblestone), Placement(Point(-4, 64, 3), Cobblestone),
      Placement(Point(-5, 64, 0), Cobblestone), Placement(Point(-5, 64, 3), Cobblestone),
      Placement(Point(-6, 64, -1), Cobblestone), Placement(Point(-6, 64, -2), Cobblestone),
      Placement(Point(-6, 64, -3), Cobblestone), Placement(Point(-6, 64, -4), Cobblestone),
      Placement(Point(-6, 64, 0), Cobblestone), Placement(Point(-6, 64, 3), Cobblestone),
      Placement(Point(-7, 64, -1), Cobblestone), Placement(Point(-7, 64, -4), Cobblestone),
      Placement(Point(-7, 64, 0), Cobblestone), Placement(Point(-7, 64, 1), Cobblestone),
      Placement(Point(-7, 64, 2), Cobblestone), Placement(Point(-7, 64, 3), Cobblestone),
      Placement(Point(-8, 64, -1), Cobblestone), Placement(Point(-8, 64, -4), Cobblestone),
      Placement(Point(-9, 64, -1), Cobblestone), Placement(Point(-9, 64, -2), Cobblestone),
      Placement(Point(-9, 64, -3), Cobblestone), Placement(Point(-9, 64, -4), Cobblestone)]

  /** The NormalStoneSlab lines, one column of the roof per row. */
  const SlabListed: seq<Placement> :=
    [
      Placement(Point(-6, 66, -1), NormalStoneSlab), Placement(Point(-6, 66, 0), NormalStoneSlab),
      Placement(Point(-6, 66, 1), NormalStoneSlab), Placement(Point(-6, 66, 2), NormalStoneSlab),
      Placement(Point(-6, 66, 3), NormalStoneSlab), Placement(Point(-6, 66, 4), NormalStoneSlab),
      Placement(Point(-6, 66, 5), NormalStoneSlab)]
    + [
      Placement(Point(-5, 66, -1), NormalStoneSlab), Placement(Point(-5, 66, 0), NormalStoneSlab),
      Placement(Point(-5, 66, 1), NormalStoneSlab), Placement(Point(-5, 66, 2), NormalStoneSlab),
      Placement(Point(-5, 66, 3), NormalStoneSlab), Placement(Point(-5, 66, 4), NormalStoneSlab),
      Placement(Point(-5, 66, 5), NormalStoneSlab)]
    + [
      Placement(Point(-4, 66, -1), NormalStoneSlab), Placement(Point(-4, 66, 0), NormalStoneSlab),
      Placement(Point(-4, 66, 1), NormalStoneSlab), Placement(Point(-4, 66, 2), NormalStoneSlab),
      Placement(Point(-4, 66, 3), NormalStoneSlab), Placement(Point(-4, 66, 4), NormalStoneSlab),
      Placement(Point(-4, 66, 5), NormalStoneSlab)]
    + [
      Placement(Point(-3, 66, -1), NormalStoneSlab), Placement(Point(-3, 66, 0), NormalStoneSlab),
      Placement(Point(-3, 66, 1), NormalStoneSlab), Placement(Point(-3, 66, 2), NormalStoneSlab),
      Placement(Point(-3, 66, 3), NormalStoneSlab), Placement(Point(-3, 66, 4), NormalStoneSlab),
      Placement(Point(-3, 66, 5), NormalStoneSlab)]
    + [
      Placement(Point(-2, 66, -1), NormalStoneSlab), Placement(Point(-2, 66, 0), NormalStoneSlab),
      Placement(Point(-2, 66, 1), NormalStoneSlab), Placement(Point(-2, 66, 2), NormalStoneSlab),
      Placement(Point(-2, 66, 3), NormalStoneSlab), Placement(Point(-2, 66, 4), NormalStoneSlab),
      Placement(Point(-2, 66, 5), NormalStoneSlab)]
    + [
      Placement(Point(-1, 66, -1), NormalStoneSlab), Placement(Point(-1, 66, 0), NormalStoneSlab),
      Placement(Point(-1, 66, 1), NormalStoneSlab), Placement(Point(-1, 66, 2), NormalStoneSlab),
      Placement(Point(-1, 66, 3), NormalStoneSlab), Placement(Point(-1, 66, 4), NormalStoneSlab),
      Placement(Point(-1, 66, 5), NormalStoneSlab)]
    + [
      Placement(Point(0, 66, -1), NormalStoneSlab), Placement(Point(0, 66, 0), NormalStoneSlab),
      Placement(Point(0, 66, 1), NormalStoneSlab), Placement(Point(0, 66, 2), NormalStoneSlab),
      Placement(Point(0, 66, 3), NormalStoneSlab), Placement(Point(0, 66, 4), NormalStoneSlab),
      Placement(Point(0, 66, 5), NormalStoneSlab)]

  /** Every line of the listing, in its order. */
  const DemoListed: seq<Placement> := OakListed + StoneListed + DoorsListed + CobbleListed + SlabListed

  // ---- the same listing, relative to the starting cell o -----------------------

  /** The 7 placements of one column of a 7 x 7 fill from p. */
  function SevenColumn(p: Point, t: Material, dx: int): seq<Placement>
  {
    [
      Placement(Point(p.x + dx, p.y, p.z), t), Placement(Point(p.x + dx, p.y, p.z + 1), t),
      Placement(Point(p.x + dx, p.y, p.z + 2), t), Placement(Point(p.x + dx, p.y, p.z + 3), t),
      Placement(Point(p.x + dx, p.y, p.z + 4), t), Placement(Point(p.x + dx, p.y, p.z + 5), t),
      Placement(Point(p.x + dx, p.y, p.z + 6), t)]
  }

  /** The 49 placements of a 7 x 7 fill from p, column by column. */
  function SevenBySeven(p: Point, t: Material): seq<Placement>
  {
    SevenColumn(p, t, 0) + SevenColumn(p, t, 1) + SevenColumn(p, t, 2) + SevenColumn(p, t, 3)
    + SevenColumn(p, t, 4) + SevenColumn(p, t, 5) + SevenColumn(p, t, 6)
  }

  function OakFrom(o: Point): seq<Placement>
  {
    SevenBySeven(o, OakPlanks)
  }

  function StoneFrom(o: Point): seq<Placement>
  {
    [
      Placement(Point(o.x, o.y, o.z), StoneBricks), Placement(Point(o.x, o.y, o.z + 1), StoneBricks),
      Placement(Point(o.x, o.y, o.z + 2), StoneBricks), Placement(Point(o.x, o.y, o.z + 3), StoneBricks),
      Placement(Point(o.x, o.y, o.z + 4), StoneBricks), Placement(Point(o.x, o.y, o.z + 5), StoneBricks),
      Placement(Point(o.x, o.y, o.z + 6), StoneBricks), Placement(Point(o.x, o.y, o.z + 7), StoneBricks),
      Placement(Point(o.x + 1, o.y, o.z), StoneBricks), Placement(Point(o.x + 1, o.y, o.z + 7), StoneBricks),
      Placement(Point(o.x + 2, o.y, o.z), StoneBricks), Placement(Point(o.x + 2, o.y, o.z + 7), StoneBricks),
      Placement(Point(o.x + 3, o.y, o.z), StoneBricks), Placement(Point(o.x + 3, o.y, o.z + 7), StoneBricks),
      Placement(Point(o.x + 4, o.y, o.z), StoneBricks), Placement(Point(o.x + 4, o.y, o.z + 7), StoneBricks),
      Placement(Point(o.x + 5, o.y, o.z), StoneBricks), Placement(Point(o.x + 5, o.y, o.z + 7), StoneBricks),
      Placement(Point(o.x + 6, o.y, o.z), StoneBricks), Placement(Point(o.x + 6, o.y, o.z + 7), StoneBricks),
      Placement(Point(o.x + 7, o.y, o.z), StoneBricks), Placement(Point(o.x + 7, o.y, o.z + 1), StoneBricks),
      Placement(Point(o.x + 7, o.y, o.z + 2), StoneBricks), Placement(Point(o.x + 7, o.y, o.z + 3), StoneBricks),
      Placement(Point(o.x + 7, o.y, o.z + 4), StoneBricks), Placement(Point(o.x + 7, o.y, o.z + 5), StoneBricks),
      Placement(Point(o.x + 7, o.y, o.z + 6), StoneBricks), Placement(Point(o.x + 7, o.y, o.z + 7), StoneBricks)]
  }

  function DoorsFrom(o: Point): seq<Placement>
  {
    [
      Placement(Point(o.x - 3, o.y, o.z), AcaciaDoor), Placement(Point(o.x - 6, o.y, o.z), BirchDoor)]
  }

  function CobbleFrom(o: Point): seq<Placement>
  {
    [
      Placement(Point(o.x - 4, o.y, o.z), Cobblestone), Placement(Point(o.x - 4, o.y, o.z + 1), Cobblestone),
      Placement(Point(o.x - 4, o.y, o.z + 2), Cobblestone), Placement(Point(o.x - 4, o.y, o.z + 3), Cobblestone),
      Placement(Point(o.x - 5, o.y, o.z), Cobblestone), Placement(Point(o.x - 5, o.y, o.z + 3), Cobblestone),
      Placement(Point(o.x - 6, o.y, o.z - 1), Cobblestone), Placement(Point(o.x - 6, o.y, o.z - 2), Cobblestone),
      Placement(Point(o.x - 6, o.y, o.z - 3), Cobblestone), Placement(Point(o.x - 6, o.y, o.z - 4), Cobblestone),
      Placement(Point(o.x - 6, o.y, o.z), Cobblestone), Placement(Point(o.x - 6, o.y, o.z + 3), Cobblestone),
      Placement(Point(o.x - 7, o.y, o.z - 1), Cobblestone), Placement(Point(o.x - 7, o.y, o.z - 4), Cobblestone),
      Placement(Point(o.x - 7, o.y, o.z), Cobblestone), Placement(Point(o.x - 7, o.y, o.z + 1), Cobblestone),
      Placement(Point(o.x - 7, o.y, o.z + 2), Cobblestone), Placement(Point(o.x - 7, o.y, o.z + 3), Cobblestone),
      Placement(Point(o.x - 8, o.y, o.z - 1), Cobblestone), Placement(Point(o.x - 8, o.y, o.z - 4), Cobblestone),
      Placement(Point(o.x - 9, o.y, o.z - 1), Cobblestone), Placement(Point(o.x - 9, o.y, o.z - 2), Cobblestone),
      Placement(Point(o.x - 9, o.y, o.z - 3), Cobblestone), Placement(Point(o.x - 9, o.y, o.z - 4), Cobblestone)]
  }

  function SlabFrom(o: Point): seq<Placement>
  {
    SevenBySeven(RoofCorner(o), NormalStoneSlab)
  }

  function ListedFrom(o: Point): seq<Placement>
  {
    OakFrom(o) + StoneFrom(o) + DoorsFrom(o) + CobbleFrom(o) + SlabFrom(o)
  }

  // ---- the three squares of the demo, facing by facing -------------------

  // SquareWalls turns with the remainder of a sum; with the start facing
  // known, each square is four lines with their facings written out.

  /** Four walls started facing +z: the square east and north of p. */
  function EastSquare(p: Point, t: Material, n: int): seq<Placement>
  {
    var m := Max(n, 0);
    Line(p, 0, t, n) + Line(Point(p.x, p.y, p.z + m), 90, t, n)
    + Line(Point(p.x + m, p.y, p.z + m), 180, t, n) + Line(Point(p.x + m, p.y, p.z), 270, t, n)
  }

  /** Four walls started facing -x: the square west and north of p. */
  function WestSquare(p: Point, t: Material, n: int): seq<Placement>
  {
    var m := Max(n, 0);
    Line(p, 270, t, n) + Line(Point(p.x - m, p.y, p.z), 0, t, n)
    + Line(Point(p.x - m, p.y, p.z + m), 90, t, n) + Line(Point(p.x, p.y, p.z + m), 180, t, n)
  }

  /** Four walls started facing -z: the square west and south of p. */
  function SouthSquare(p: Point, t: Material, n: int): seq<Placement>
  {
    var m := Max(n, 0);
    Line(p, 180, t, n) + Line(Point(p.x, p.y, p.z - m), 270, t, n)
    + Line(Point(p.x - m, p.y, p.z - m), 0, t, n) + Line(Point(p.x - m, p.y, p.z), 90, t, n)
  }

  lemma EastSquareIs(p: Point, t: Material, n: int)
    ensures SquareWalls(p, 0, t, n) == EastSquare(p, t, n)
  {
    assert Turn(0, 90) == 90;
    assert Turn(90, 90) == 180;
    assert Turn(180, 90) == 270;
  }

  lemma WestSquareIs(p: Point, t: Material, n: int)
    ensures SquareWalls(p, 270, t, n) == WestSquare(p, t, n)
  {
    assert Turn(270, 90) == 0;
    assert Turn(0, 90) == 90;
    assert Turn(90, 90) == 180;
  }

  lemma SouthSquareIs(p: Point, t: Material, n: int)
    ensures SquareWalls(p, 180, t, n) == SouthSquare(p, t, n)
  {
    var m := Max(n, 0);
    var f1, f2 := Turn(180, 90), Turn(Turn(180, 90), 90);
    var p1, p2 := Move(p, 180, m), Move(Move(p, 180, m), f1, m);
    var q1, q2, q3 := Point(p.x, p.y, p.z - m), Point(p.x - m, p.y, p.z - m), Point(p.x - m, p.y, p.z);
    assert f1 == 270 && p1 == q1;
    assert f2 == 0 && p2 == q2;
    assert Line(p1, f1, t, n) == Line(q1, 270, t, n);
    assert Line(p2, f2, t, n) == Line(q2, 0, t, n);
    assert Line(Move(p2, f2, m), Turn(f2, 90), t, n) == Line(q3, 90, t, n) by {
      assert Turn(0, 90) == 90;
      assert Move(q2, 0, m) == q3;
    }
  }

  // ---- what the demo puts ----------------------------------------------------

  /** The stone walls, the first tiny room and the second tiny room. */
  function StoneWalls(o: Point): seq<Placement>
  {
    EastSquare(o, StoneBricks, 7)
  }

  function FirstRoom(o: Point): seq<Placement>
  {
    WestSquare(Point(o.x - 4, o.y, o.z), Cobblestone, 3)
  }

  function SecondRoom(o: Point): seq<Placement>
  {
    SouthSquare(Point(o.x - 6, o.y, o.z - 1), Cobblestone, 3)
  }

  /** What the demo puts from the starting cell o, in the order it puts
      it. */
  function PlacedFrom(o: Point): seq<Placement>
  {
    PlacedSized(o, 7, 7, 7, 3, 7, 7)
  }

  // ---- unrolling the fixed-size loops ---------------------------------------

  lemma FillColumnSeven(p: Point, t: Material, dx: int)
    ensures FillColumn(p, t, dx, 7) == SevenColumn(p, t, dx)
  {
    assert FillColumn(p, t, dx, 1) == [Placement(Point(p.x + dx, p.y, p.z + 0), t)];
    assert FillColumn(p, t, dx, 2) == FillColumn(p, t, dx, 1) + [Placement(Point(p.x + dx, p.y, p.z + 1), t)];
    assert FillColumn(p, t, dx, 3) == FillColumn(p, t, dx, 2) + [Placement(Point(p.x + dx, p.y, p.z + 2), t)];
    assert FillColumn(p, t, dx, 4) == FillColumn(p, t, dx, 3) + [Placement(Point(p.x + dx, p.y, p.z + 3), t)];
    assert FillColumn(p, t, dx, 5) == FillColumn(p, t, dx, 4) + [Placement(Point(p.x + dx, p.y, p.z + 4), t)];
    assert FillColumn(p, t, dx, 6) == FillColumn(p, t, dx, 5) + [Placement(Point(p.x + dx, p.y, p.z + 5), t)];
  }

  lemma FillAreaSeven(p: Point, t: Material)
    ensures FillArea(p, t, 7, 7) == FillColumn(p, t, 0, 7) + FillColumn(p, t, 1, 7) + FillColumn(p, t, 2, 7)
      + FillColumn(p, t, 3, 7) + FillColumn(p, t, 4, 7) + FillColumn(p, t, 5, 7) + FillColumn(p, t, 6, 7)
  {
    assert FillArea(p, t, 1, 7) == FillColumn(p, t, 0, 7);
    assert FillArea(p, t, 2, 7) == FillArea(p, t, 1, 7) + FillColumn(p, t, 1, 7);
    assert FillArea(p, t, 3, 7) == FillArea(p, t, 2, 7) + FillColumn(p, t, 2, 7);
    assert FillArea(p, t, 4, 7) == FillArea(p, t, 3, 7) + FillColumn(p, t, 3, 7);
    assert FillArea(p, t, 5, 7) == FillArea(p, t, 4, 7) + FillColumn(p, t, 4, 7);
    assert FillArea(p, t, 6, 7) == FillArea(p, t, 5, 7) + FillColumn(p, t, 5, 7);
  }
  lemma LineSeven(p: Point, f: int, t: Material)
    ensures Line(p, f, t, 7) == [Placement(Move(p, f, 0), t), Placement(Move(p, f, 1), t), Placement(Move(p, f, 2), t), Placement(Move(p, f, 3), t), Placement(Move(p, f, 4), t), Placement(Move(p, f, 5), t), Placement(Move(p, f, 6), t)]
  {
    assert Line(p, f, t, 1) == [Placement(Move(p, f, 0), t)];
    assert Line(p, f, t, 2) == Line(p, f, t, 1) + [Placement(Move(p, f, 1), t)];
    assert Line(p, f, t, 3) == Line(p, f, t, 2) + [Placement(Move(p, f, 2), t)];
    assert Line(p, f, t, 4) == Line(p, f, t, 3) + [Placement(Move(p, f, 3), t)];
    assert Line(p, f, t, 5) == Line(p, f, t, 4) + [Placement(Move(p, f, 4), t)];
    assert Line(p, f, t, 6) == Line(p, f, t, 5) + [Placement(Move(p, f, 5), t)];
  }
  lemma LineThree(p: Point, f: int, t: Material)
    ensures Line(p, f, t, 3) == [Placement(Move(p, f, 0), t), Placement(Move(p, f, 1), t), Placement(Move(p, f, 2), t)]
  {
    assert Line(p, f, t, 1) == [Placement(Move(p, f, 0), t)];
    assert Line(p, f, t, 2) == Line(p, f, t, 1) + [Placement(Move(p, f, 1), t)];
  }

  /** The cells of the stone walls: the border of the 8 x 8 square at o. */
  predicate StoneCell(o: Point, q: Placement)
  {
    q.block == StoneBricks && q.point.y == o.y
    && o.x <= q.point.x <= o.x + 7 && o.z <= q.point.z <= o.z + 7
    && (q.point.x == o.x || q.point.x == o.x + 7 || q.point.z == o.z || q.point.z == o.z + 7)
  }

  lemma StoneWallsCells(o: Point, q: Placement)
    ensures q in StoneWalls(o) <==> StoneCell(o, q)
  {
    SquareMember(o, 0, StoneBricks, 7, q);
    EastSquareIs(o, StoneBricks, 7);
    assert Turn(0, 90) == 90;
    assert Turn(90, 90) == 180;
    assert Turn(180, 90) == 270;
  }

  lemma StoneListedCells(o: Point, q: Placement)
    ensures q in StoneFrom(o) ==> StoneCell(o, q)
  {
    var s := StoneFrom(o);
    assert forall i | 0 <= i < |s| :: StoneCell(o, s[i]);
  }

  lemma StoneCellsListed(o: Point, q: Placement)
    ensures StoneCell(o, q) ==> q in StoneFrom(o)
  {
  }

  /** The stone walls put the stone lines of the listing, once each. */
  lemma StoneAsListed(o: Point)
    ensures multiset(StoneWalls(o)) == multiset(StoneFrom(o))
  {
    SquareDistinct(o, 0, StoneBricks, 7);
    EastSquareIs(o, StoneBricks, 7);
    forall q ensures q in StoneWalls(o) <==> q in StoneFrom(o) {
      StoneWallsCells(o, q);
      StoneListedCells(o, q);
      StoneCellsListed(o, q);
    }
    SameValuesSameMultiset(StoneWalls(o), StoneFrom(o));
  }

  /** The cells of a tiny room: the border of the 4 x 4 square whose
      corner of least x and z is lo. */
  predicate RoomCell(lo: Point, q: Placement)
  {
    q.block == Cobblestone && q.point.y == lo.y
    && lo.x <= q.point.x <= lo.x + 3 && lo.z <= q.point.z <= lo.z + 3
    && (q.point.x == lo.x || q.point.x == lo.x + 3 || q.point.z == lo.z || q.point.z == lo.z + 3)
  }

  /** A tiny room started facing -x covers the square west and south of
      its start. */
  lemma WestRoomCells(p: Point, q: Placement)
    ensures q in WestSquare(p, Cobblestone, 3) <==> RoomCell(Point(p.x - 3, p.y, p.z), q)
  {
    SquareMember(p, 270, Cobblestone, 3, q);
    WestSquareIs(p, Cobblestone, 3);
    assert Turn(270, 90) == 0;
    assert Turn(0, 90) == 90;
    assert Turn(90, 90) == 180;
  }

  /** A tiny room started facing -z covers the square west and south of
      its start. */
  lemma SouthRoomCells(p: Point, q: Placement)
    ensures q in SouthSquare(p, Cobblestone, 3) <==> RoomCell(Point(p.x - 3, p.y, p.z - 3), q)
  {
    SquareMember(p, 180, Cobblestone, 3, q);
    SouthSquareIs(p, Cobblestone, 3);
    assert Turn(180, 90) == 270;
    assert Turn(270, 90) == 0;
    assert Turn(0, 90) == 90;
  }

  function FirstRoomCorner(o: Point): Point
  {
    Point(o.x - 7, o.y, o.z)
  }

  function SecondRoomCorner(o: Point): Point
  {
    Point(o.x - 9, o.y, o.z - 4)
  }

  lemma FirstRoomCells(o: Point, q: Placement)
    ensures q in FirstRoom(o) <==> RoomCell(FirstRoomCorner(o), q)
  {
    var p := Point(o.x - 4, o.y, o.z);
    WestRoomCells(p, q);
    assert FirstRoom(o) == WestSquare(p, Cobblestone, 3);
    assert FirstRoomCorner(o) == Point(p.x - 3, p.y, p.z);
  }

  lemma SecondRoomCells(o: Point, q: Placement)
    ensures q in SecondRoom(o) <==> RoomCell(SecondRoomCorner(o), q)
  {
    var p := Point(o.x - 6, o.y, o.z - 1);
    SouthRoomCells(p, q);
    assert SecondRoom(o) == SouthSquare(p, Cobblestone, 3);
    assert SecondRoomCorner(o) == Point(p.x - 3, p.y, p.z - 3);
  }

  lemma CobbleListedCells(o: Point, q: Placement)
    ensures q in CobbleFrom(o) ==> RoomCell(FirstRoomCorner(o), q) || RoomCell(SecondRoomCorner(o), q)
  {
    var s := CobbleFrom(o);
    assert forall i | 0 <= i < |s| :: RoomCell(FirstRoomCorner(o), s[i]) || RoomCell(SecondRoomCorner(o), s[i]);
  }

  lemma CobbleCellsListed(o: Point, q: Placement)
    ensures RoomCell(FirstRoomCorner(o), q) || RoomCell(SecondRoomCorner(o), q) ==> q in CobbleFrom(o)
  {
  }

  /** The two tiny rooms are disjoint, so together they put no cell twice. */
  lemma FirstRoomDistinct(o: Point)
    ensures Distinct(FirstRoom(o))
  {
    var p := Point(o.x - 4, o.y, o.z);
    SquareDistinct(p, 270, Cobblestone, 3);
    WestSquareIs(p, Cobblestone, 3);
    assert FirstRoom(o) == WestSquare(p, Cobblestone, 3);
  }

  lemma SecondRoomDistinct(o: Point)
    ensures Distinct(SecondRoom(o))
  {
    var p := Point(o.x - 6, o.y, o.z - 1);
    SquareDistinct(p, 180, Cobblestone, 3);
    SouthSquareIs(p, Cobblestone, 3);
    assert SecondRoom(o) == SouthSquare(p, Cobblestone, 3);
  }

  lemma RoomsDistinct(o: Point)
    ensures Distinct(FirstRoom(o) + SecondRoom(o))
  {
    FirstRoomDistinct(o);
    SecondRoomDistinct(o);
    forall q | q in FirstRoom(o) ensures q !in SecondRoom(o) {
      RoomsDisjoint(o, q);
    }
    DistinctAppend(FirstRoom(o), SecondRoom(o));
  }

  /** The first room lies north of z = o.z - 1 (at z >= o.z) and the second south of it. */
  lemma RoomsDisjoint(o: Point, q: Placement)
    ensures q in FirstRoom(o) ==> q !in SecondRoom(o)
  {
    FirstRoomCells(o, q);
    SecondRoomCells(o, q);
  }

  lemma RoomsMember(o: Point, q: Placement)
    ensures q in FirstRoom(o) + SecondRoom(o) <==> q in CobbleFrom(o)
  {
    FirstRoomCells(o, q);
    SecondRoomCells(o, q);
    CobbleListedCells(o, q);
    CobbleCellsListed(o, q);
  }

  /** The two tiny rooms put the cobblestone lines of the listing, once
      each. */
  lemma CobbleAsListed(o: Point)
    ensures multiset(FirstRoom(o) + SecondRoom(o)) == multiset(CobbleFrom(o))
  {
    RoomsDistinct(o);
    forall q ensures q in FirstRoom(o) + SecondRoom(o) <==> q in CobbleFrom(o) {
      RoomsMember(o, q);
    }
    SameValuesSameMultiset(FirstRoom(o) + SecondRoom(o), CobbleFrom(o));
  }

  // ---- the listing, group by group ------------------------------------------

  /** A 7 x 7 fill puts the 49 cells column by column. */
  lemma FillSevenBySeven(p: Point, t: Material)
    ensures FillArea(p, t, 7, 7) == SevenBySeven(p, t)
  {
    FillAreaSeven(p, t);
    FillColumnSeven(p, t, 0);
    FillColumnSeven(p, t, 1);
    FillColumnSeven(p, t, 2);
    FillColumnSeven(p, t, 3);
    FillColumnSeven(p, t, 4);
    FillColumnSeven(p, t, 5);
    FillColumnSeven(p, t, 6);
  }

  /** Taken from the test's starting cell, the relative listing is the
      test's. */
  lemma ListingFromOrigin()
    ensures ListedFrom(DemoOrigin) == DemoListed
  {
    assert OakFrom(DemoOrigin) == OakListed;
    assert StoneFrom(DemoOrigin) == StoneListed;
    assert DoorsFrom(DemoOrigin) == DoorsListed;
    assert CobbleFrom(DemoOrigin) == CobbleListed;
    assert SlabFrom(DemoOrigin) == SlabListed;
  }

  // ---- the run, segment by segment -------------------------------------------

  /** Two operations in a row. */
  lemma StepsTwo(s: TurtleState, a: Call, b: Call)
    ensures Steps(s, [a, b]) == Step(Step(s, a), b)
  {
    assert [a, b][..1] == [a];
    assert [a][..0] == [];
    assert Steps(s, [a]) == Step(s, a);
  }

  /** A layer is up one, the body, down one. */
  lemma LayerSteps(s: TurtleState, body: seq<Call>)
    ensures Steps(s, LayerCalls(body)) == Step(Steps(Step(s, Up(1)), body), Down(1))
  {
    StepsSnoc(s, [Up(1)] + body, Down(1));
    StepsAppend(s, [Up(1)], body);
    assert [Up(1)][..0] == [];
  }

  // The segment lemmas take the sizes as parameters: stated with the
  // literal sizes, the verifier unrolls every wall and fill.

  lemma OpenRun(s: TurtleState, w: int, d: int)
    ensures Steps(s, [Face(0), Fill(OakPlanks, w, d)]) == TurtleState(s.pos, 0, s.placed + FillArea(s.pos, OakPlanks, w, d))
  {
    StepsTwo(s, Face(0), Fill(OakPlanks, w, d));
  }

  /** Four walls started facing +z end where they started, facing -x. */
  lemma EastSquareRun(s: TurtleState, m: Material, n: int)
    requires s.facing == 0
    ensures Steps(s, SquareCalls(m, n)) == TurtleState(s.pos, 270, s.placed + EastSquare(s.pos, m, n))
  {
    SquareUnrolled(s, m, n);
    SquareReturns(s, m, n);
    EastSquareIs(s.pos, m, n);
    assert Turn(0, 90) == 90;
    assert Turn(90, 90) == 180;
    assert Turn(180, 90) == 270;
  }

  lemma FirstDoorRun(s: TurtleState)
    requires s.facing == 270
    ensures Steps(s, FirstDoorCalls)
      == TurtleState(Point(s.pos.x - 4, s.pos.y, s.pos.z), 270, s.placed + [Placement(Point(s.pos.x - 3, s.pos.y, s.pos.z), AcaciaDoor)])
  {
    StepsTwo(s, Forward(3), Door(AcaciaDoor));
    var door := Point(s.pos.x - 3, s.pos.y, s.pos.z);
    var s1 := Step(s, Forward(3));
    assert s1 == TurtleState(door, 270, s.placed);
    assert Step(s1, Door(AcaciaDoor)) == TurtleState(Move(door, 270, 1), 270, s.placed + [Placement(door, AcaciaDoor)]);
  }

  /** Four walls started facing -x end where they started, facing -z. */
  lemma WestSquareRun(s: TurtleState, m: Material, n: int)
    requires s.facing == 270
    ensures Steps(s, SquareCalls(m, n)) == TurtleState(s.pos, 180, s.placed + WestSquare(s.pos, m, n))
  {
    SquareUnrolled(s, m, n);
    SquareReturns(s, m, n);
    WestSquareIs(s.pos, m, n);
    assert Turn(270, 90) == 0;
    assert Turn(0, 90) == 90;
    assert Turn(90, 90) == 180;
  }

  lemma SecondDoorRun(s: TurtleState)
    requires s.facing == 180
    ensures Steps(s, SecondDoorCalls)
      == TurtleState(Point(s.pos.x - 2, s.pos.y, s.pos.z - 1), 180, s.placed + [Placement(Point(s.pos.x - 2, s.pos.y, s.pos.z), BirchDoor)])
  {
    StepsTwo(s, Right(2), Door(BirchDoor));
    var door := Point(s.pos.x - 2, s.pos.y, s.pos.z);
    var s1 := Step(s, Right(2));
    assert s1 == TurtleState(door, 180, s.placed) by {
      assert Turn(180, 90) == 270;
      assert Move(s.pos, 270, 2) == door;
    }
    assert Step(s1, Door(BirchDoor)) == TurtleState(Move(door, 180, 1), 180, s.placed + [Placement(door, BirchDoor)]);
  }

  /** Four walls started facing -z end where they started, facing +x. */
  lemma SouthSquareRun(s: TurtleState, m: Material, n: int)
    requires s.facing == 180
    ensures Steps(s, SquareCalls(m, n)) == TurtleState(s.pos, 90, s.placed + SouthSquare(s.pos, m, n))
  {
    SquareUnrolled(s, m, n);
    SquareReturns(s, m, n);
    SouthSquareIs(s.pos, m, n);
    assert Turn(180, 90) == 270;
    assert Turn(270, 90) == 0;
    assert Turn(0, 90) == 90;
  }

  /** A roof inside a layer fills two levels up and ends where it started. */
  lemma RoofLayerRun(s: TurtleState, w: int, d: int, b: Material)
    ensures Steps(s, LayerCalls(RoofCalls(w, d, b)))
      == TurtleState(s.pos, s.facing, s.placed + FillArea(Point(s.pos.x, s.pos.y + 2, s.pos.z), b, w, d))
  {
    assert Steps(s, LayerCalls(RoofCalls(w, d, b))) == Step(Steps(Step(s, Up(1)), RoofCalls(w, d, b)), Down(1)) by {
      LayerSteps(s, RoofCalls(w, d, b));
    }
    assert Steps(Step(s, Up(1)), RoofCalls(w, d, b))
      == TurtleState(Point(s.pos.x, s.pos.y + 1, s.pos.z), s.facing, s.placed + FillArea(Point(s.pos.x, s.pos.y + 2, s.pos.z), b, w, d)) by {
      RoofEffect(Step(s, Up(1)), w, d, b);
    }
  }

  /** Seven lists appended one after another. */
  lemma AppendSeven<T>(x: seq<T>, a: seq<T>, b: seq<T>, c: seq<T>, d: seq<T>, e: seq<T>, f: seq<T>, g: seq<T>)
    ensures x + a + b + c + d + e + f + g == x + (a + b + c + d + e + f + g)
  {
  }

  /** The floor, the stone walls and the first door. */
  function FrontCalls(fw: int, fd: int, n: int): seq<Call>
  {
    [Face(0), Fill(OakPlanks, fw, fd)] + SquareCalls(StoneBricks, n) + FirstDoorCalls
  }

  /** The first tiny room and the second door. */
  function MiddleCalls(r: int): seq<Call>
  {
    SquareCalls(Cobblestone, r) + SecondDoorCalls
  }

  /** The second tiny room and the roof. */
  function BackCalls(r: int, rw: int, rd: int): seq<Call>
  {
    SquareCalls(Cobblestone, r) + LayerCalls(RoofCalls(rw, rd, NormalStoneSlab))
  }

  /** The demo's chain with the floor, wall, room and roof sizes left open. */
  function DemoCallsSized(fw: int, fd: int, n: int, r: int, rw: int, rd: int): seq<Call>
  {
    FrontCalls(fw, fd, n) + MiddleCalls(r) + BackCalls(r, rw, rd)
  }

  /** What that chain puts from o, in order. */
  function PlacedSized(o: Point, fw: int, fd: int, n: int, r: int, rw: int, rd: int): seq<Placement>
  {
    FillArea(o, OakPlanks, fw, fd)
    + EastSquare(o, StoneBricks, n)
    + [Placement(Point(o.x - 3, o.y, o.z), AcaciaDoor)]
    + WestSquare(Point(o.x - 4, o.y, o.z), Cobblestone, r)
    + [Placement(Point(o.x - 6, o.y, o.z), BirchDoor)]
    + SouthSquare(Point(o.x - 6, o.y, o.z - 1), Cobblestone, r)
    + FillArea(Point(o.x - 6, o.y + 2, o.z - 1), NormalStoneSlab, rw, rd)
  }

  lemma FrontRun(s: TurtleState, fw: int, fd: int, n: int)
    ensures Steps(s, FrontCalls(fw, fd, n))
      == TurtleState(Point(s.pos.x - 4, s.pos.y, s.pos.z), 270,
                     s.placed + FillArea(s.pos, OakPlanks, fw, fd) + EastSquare(s.pos, StoneBricks, n)
                     + [Placement(Point(s.pos.x - 3, s.pos.y, s.pos.z), AcaciaDoor)])
  {
    var o := s.pos;
    var open, walls := [Face(0), Fill(OakPlanks, fw, fd)], SquareCalls(StoneBricks, n);
    var t1 := TurtleState(o, 0, s.placed + FillArea(o, OakPlanks, fw, fd));
    var t2 := TurtleState(o, 270, t1.placed + EastSquare(o, StoneBricks, n));
    var t3 := TurtleState(Point(o.x - 4, o.y, o.z), 270, t2.placed + [Placement(Point(o.x - 3, o.y, o.z), AcaciaDoor)]);
    assert Steps(s, open) == t1 by { OpenRun(s, fw, fd); }
    assert Steps(t1, walls) == t2 by { EastSquareRun(t1, StoneBricks, n); }
    assert Steps(t2, FirstDoorCalls) == t3 by { FirstDoorRun(t2); }
    StepsThree(s, open, walls, FirstDoorCalls, t1, t2, t3);
  }

  /** From just west of the first door facing -x, the second door ends the
      turtle one block south of it, facing -z. */
  lemma MiddleRun(t: TurtleState, r: int, door: Point, next: Point)
    requires t.facing == 270
    requires door == Point(t.pos.x - 2, t.pos.y, t.pos.z) && next == Point(t.pos.x - 2, t.pos.y, t.pos.z - 1)
    ensures Steps(t, MiddleCalls(r))
      == TurtleState(next, 180, t.placed + WestSquare(t.pos, Cobblestone, r) + [Placement(door, BirchDoor)])
  {
    StepsAppend(t, SquareCalls(Cobblestone, r), SecondDoorCalls);
    var t4 := TurtleState(t.pos, 180, t.placed + WestSquare(t.pos, Cobblestone, r));
    WestSquareRun(t, Cobblestone, r);
    SecondDoorRun(t4);
  }

  /** The second tiny room and the roof, from just south of the second door
      facing -z. */
  lemma BackRun(t: TurtleState, r: int, rw: int, rd: int, top: Point)
    requires t.facing == 180
    requires top == Point(t.pos.x, t.pos.y + 2, t.pos.z)
    ensures Steps(t, BackCalls(r, rw, rd))
      == TurtleState(t.pos, 90, t.placed + SouthSquare(t.pos, Cobblestone, r) + FillArea(top, NormalStoneSlab, rw, rd))
  {
    StepsAppend(t, SquareCalls(Cobblestone, r), LayerCalls(RoofCalls(rw, rd, NormalStoneSlab)));
    var t6 := TurtleState(t.pos, 90, t.placed + SouthSquare(t.pos, Cobblestone, r));
    SouthSquareRun(t, Cobblestone, r);
    RoofLayerRun(t6, rw, rd, NormalStoneSlab);
  }

  /** Three call lists in a row, each known to take one state to the next. */
  lemma StepsThree(s: TurtleState, a: seq<Call>, b: seq<Call>, c: seq<Call>, t1: TurtleState, t2: TurtleState, t3: TurtleState)
    requires Steps(s, a) == t1 && Steps(t1, b) == t2 && Steps(t2, c) == t3
    ensures Steps(s, a + b + c) == t3
  {
    StepsAppend(s, a + b, c);
    StepsAppend(s, a, b);
  }

  /** The chain from any start, whatever the sizes: the turtle ends one
      block south of the second door, facing +x. */
  lemma DemoRunSized(s: TurtleState, fw: int, fd: int, n: int, r: int, rw: int, rd: int)
    ensures Steps(s, DemoCallsSized(fw, fd, n, r, rw, rd))
      == TurtleState(Point(s.pos.x - 6, s.pos.y, s.pos.z - 1), 90, s.placed + PlacedSized(s.pos, fw, fd, n, r, rw, rd))
  {
    var oak, stone, slab := FillArea(s.pos, OakPlanks, fw, fd), EastSquare(s.pos, StoneBricks, n),
      FillArea(Point(s.pos.x - 6, s.pos.y + 2, s.pos.z - 1), NormalStoneSlab, rw, rd);
    var acacia, birch := [Placement(Point(s.pos.x - 3, s.pos.y, s.pos.z), AcaciaDoor)], [Placement(Point(s.pos.x - 6, s.pos.y, s.pos.z), BirchDoor)];
    var room1, room2 := WestSquare(Point(s.pos.x - 4, s.pos.y, s.pos.z), Cobblestone, r), SouthSquare(Point(s.pos.x - 6, s.pos.y, s.pos.z - 1), Cobblestone, r);
    var t3 := TurtleState(Point(s.pos.x - 4, s.pos.y, s.pos.z), 270, s.placed + oak + stone + acacia);
    var t5 := TurtleState(Point(s.pos.x - 6, s.pos.y, s.pos.z - 1), 180, t3.placed + room1 + birch);
    var t7 := TurtleState(Point(s.pos.x - 6, s.pos.y, s.pos.z - 1), 90, t5.placed + room2 + slab);
    assert Steps(s, DemoCallsSized(fw, fd, n, r, rw, rd)) == t7 by {
      assert Steps(s, FrontCalls(fw, fd, n)) == t3 by { FrontRun(s, fw, fd, n); }
      assert Steps(t3, MiddleCalls(r)) == t5 by { MiddleRun(t3, r, Point(s.pos.x - 6, s.pos.y, s.pos.z), t5.pos); }
      assert Steps(t5, BackCalls(r, rw, rd)) == t7 by { BackRun(t5, r, rw, rd, Point(s.pos.x - 6, s.pos.y + 2, s.pos.z - 1)); }
      StepsThree(s, FrontCalls(fw, fd, n), MiddleCalls(r), BackCalls(r, rw, rd), t3, t5, t7);
    }
    assert t7.placed == s.placed + PlacedSized(s.pos, fw, fd, n, r, rw, rd) by {
      AppendSeven(s.placed, oak, stone, acacia, room1, birch, room2, slab);
      PlacedPieces(s.pos, fw, fd, n, r, rw, rd, oak, stone, acacia, room1, birch, room2, slab);
    }
  }

  /** PlacedSized is the seven pieces in a row. */
  lemma PlacedPieces(o: Point, fw: int, fd: int, n: int, r: int, rw: int, rd: int,
                     oak: seq<Placement>, stone: seq<Placement>, acacia: seq<Placement>, room1: seq<Placement>,
                     birch: seq<Placement>, room2: seq<Placement>, slab: seq<Placement>)
    requires oak == FillArea(o, OakPlanks, fw, fd) && stone == EastSquare(o, StoneBricks, n)
    requires acacia == [Placement(Point(o.x - 3, o.y, o.z), AcaciaDoor)] && birch == [Placement(Point(o.x - 6, o.y, o.z), BirchDoor)]
    requires room1 == WestSquare(Point(o.x - 4, o.y, o.z), Cobblestone, r) && room2 == SouthSquare(Point(o.x - 6, o.y, o.z - 1), Cobblestone, r)
    requires slab == FillArea(Point(o.x - 6, o.y + 2, o.z - 1), NormalStoneSlab, rw, rd)
    ensures PlacedSized(o, fw, fd, n, r, rw, rd) == oak + stone + acacia + room1 + birch + room2 + slab
  {
  }

  /** The demo from any start: the turtle ends one block south of the
      second door, facing +x, having put what PlacedFrom lists. */
  lemma DemoRun(s: TurtleState)
    ensures Steps(s, DemoCalls) == TurtleState(Point(s.pos.x - 6, s.pos.y, s.pos.z - 1), 90, s.placed + PlacedFrom(s.pos))
  {
    DemoRunSized(s, 7, 7, 7, 3, 7, 7);
  }

  lemma AfterNothing<T>(a: seq<T>, b: seq<T>)
    requires a == []
    ensures a + b == b
  {
  }

  /** Five groups of values, counted together. */
  function Bag5<T>(a1: seq<T>, a2: seq<T>, a3: seq<T>, a4: seq<T>, a5: seq<T>): multiset<T>
  {
    multiset(a1) + multiset(a2) + multiset(a3) + multiset(a4) + multiset(a5)
  }

  lemma Bag5Agree<T>(a1: seq<T>, a2: seq<T>, a3: seq<T>, a4: seq<T>, a5: seq<T>,
                     b1: seq<T>, b2: seq<T>, b3: seq<T>, b4: seq<T>, b5: seq<T>)
    requires multiset(a1) == multiset(b1) && multiset(a2) == multiset(b2) && multiset(a3) == multiset(b3)
    requires multiset(a4) == multiset(b4) && multiset(a5) == multiset(b5)
    ensures Bag5(a1, a2, a3, a4, a5) == Bag5(b1, b2, b3, b4, b5)
  {
  }

  /** Seven pieces in a row, as blocks: the third and fifth piece taken
      together, and the fourth and sixth. */
  lemma Regroup<T>(a1: seq<T>, a2: seq<T>, a3: seq<T>, a4: seq<T>, a5: seq<T>, a6: seq<T>, a7: seq<T>)
    ensures multiset(a1 + a2 + a3 + a4 + a5 + a6 + a7) == Bag5(a1, a2, a3 + a5, a4 + a6, a7)
  {
    calc {
      multiset(a1 + a2 + a3 + a4 + a5 + a6 + a7);
      multiset(a1) + multiset(a2) + multiset(a3) + multiset(a4) + multiset(a5) + multiset(a6) + multiset(a7);
      multiset(a1) + multiset(a2) + multiset(a3 + a5) + multiset(a4 + a6) + multiset(a7);
    }
  }

  /** The top of the roof: two levels above the second room's start. */
  function RoofCorner(o: Point): Point
  {
    Point(o.x - 6, o.y + 2, o.z - 1)
  }

  /** The two doors of the chain. */
  function DoorPair(o: Point): seq<Placement>
  {
    [Placement(Point(o.x - 3, o.y, o.z), AcaciaDoor)] + [Placement(Point(o.x - 6, o.y, o.z), BirchDoor)]
  }

  /** What the chain puts, as blocks, group by group: the floor, the
      walls, the two doors, the two rooms and the roof. */
  lemma PlacedGroups(o: Point, fw: int, fd: int, n: int, r: int, rw: int, rd: int)
    ensures multiset(PlacedSized(o, fw, fd, n, r, rw, rd))
      == Bag5(FillArea(o, OakPlanks, fw, fd), EastSquare(o, StoneBricks, n), DoorPair(o),
              WestSquare(Point(o.x - 4, o.y, o.z), Cobblestone, r) + SouthSquare(Point(o.x - 6, o.y, o.z - 1), Cobblestone, r),
              FillArea(RoofCorner(o), NormalStoneSlab, rw, rd))
  {
    var oak, stone, slab := FillArea(o, OakPlanks, fw, fd), EastSquare(o, StoneBricks, n), FillArea(RoofCorner(o), NormalStoneSlab, rw, rd);
    var acacia, birch := [Placement(Point(o.x - 3, o.y, o.z), AcaciaDoor)], [Placement(Point(o.x - 6, o.y, o.z), BirchDoor)];
    var room1, room2 := WestSquare(Point(o.x - 4, o.y, o.z), Cobblestone, r), SouthSquare(Point(o.x - 6, o.y, o.z - 1), Cobblestone, r);
    PlacedPieces(o, fw, fd, n, r, rw, rd, oak, stone, acacia, room1, birch, room2, slab);
    Regroup(oak, stone, acacia, room1, birch, room2, slab);
  }

  /** The listing, as blocks, group by group. */
  lemma ListedGroups(o: Point)
    ensures multiset(ListedFrom(o)) == Bag5(OakFrom(o), StoneFrom(o), DoorsFrom(o), CobbleFrom(o), SlabFrom(o))
  {
  }

  lemma DoorsAsListed(o: Point)
    ensures multiset(DoorPair(o)) == multiset(DoorsFrom(o))
  {
    assert DoorPair(o) == DoorsFrom(o);
  }

  lemma OakAsListed(o: Point)
    ensures multiset(FillArea(o, OakPlanks, 7, 7)) == multiset(OakFrom(o))
  {
    FillSevenBySeven(o, OakPlanks);
  }

  lemma SlabAsListed(o: Point)
    ensures multiset(FillArea(RoofCorner(o), NormalStoneSlab, 7, 7)) == multiset(SlabFrom(o))
  {
    FillSevenBySeven(RoofCorner(o), NormalStoneSlab);
  }

  lemma StoneSquareAsListed(o: Point)
    ensures multiset(EastSquare(o, StoneBricks, 7)) == multiset(StoneFrom(o))
  {
    StoneAsListed(o);
  }

  lemma RoomSquaresAsListed(o: Point)
    ensures multiset(WestSquare(Point(o.x - 4, o.y, o.z), Cobblestone, 3) + SouthSquare(Point(o.x - 6, o.y, o.z - 1), Cobblestone, 3))
      == multiset(CobbleFrom(o))
  {
    RoomsAre(o);
    CobbleAsListed(o);
    SameSeqSameBag(WestSquare(Point(o.x - 4, o.y, o.z), Cobblestone, 3) + SouthSquare(Point(o.x - 6, o.y, o.z - 1), Cobblestone, 3),
                   FirstRoom(o) + SecondRoom(o), CobbleFrom(o));
  }

  lemma RoomsAre(o: Point)
    ensures FirstRoom(o) + SecondRoom(o)
      == WestSquare(Point(o.x - 4, o.y, o.z), Cobblestone, 3) + SouthSquare(Point(o.x - 6, o.y, o.z - 1), Cobblestone, 3)
  {
  }

  lemma SameSeqSameBag<T>(a: seq<T>, b: seq<T>, c: seq<T>)
    requires a == b && multiset(b) == multiset(c)
    ensures multiset(a) == multiset(c)
  {
  }

  /** The demo's blocks, group by group, against any five groups that
      hold the same blocks. */
  lemma PlacedAsGroups(o: Point, oak: seq<Placement>, stone: seq<Placement>, doors: seq<Placement>,
                       cobble: seq<Placement>, slab: seq<Placement>)
    requires multiset(FillArea(o, OakPlanks, 7, 7)) == multiset(oak)
    requires multiset(EastSquare(o, StoneBricks, 7)) == multiset(stone)
    requires multiset(DoorPair(o)) == multiset(doors)
    requires multiset(WestSquare(Point(o.x - 4, o.y, o.z), Cobblestone, 3) + SouthSquare(Point(o.x - 6, o.y, o.z - 1), Cobblestone, 3))
      == multiset(cobble)
    requires multiset(FillArea(RoofCorner(o), NormalStoneSlab, 7, 7)) == multiset(slab)
    ensures multiset(PlacedFrom(o)) == Bag5(oak, stone, doors, cobble, slab)
  {
    PlacedGroups(o, 7, 7, 7, 3, 7, 7);
    Bag5Agree(FillArea(o, OakPlanks, 7, 7), EastSquare(o, StoneBricks, 7), DoorPair(o),
              WestSquare(Point(o.x - 4, o.y, o.z), Cobblestone, 3) + SouthSquare(Point(o.x - 6, o.y, o.z - 1), Cobblestone, 3),
              FillArea(RoofCorner(o), NormalStoneSlab, 7, 7), oak, stone, doors, cobble, slab);
  }

  /** What the demo puts from any start is, block for block, the listing
      the test compares with once both are sorted. */
  lemma PlacedAsListed(o: Point)
    ensures multiset(PlacedFrom(o)) == multiset(ListedFrom(o))
  {
    OakAsListed(o);
    StoneSquareAsListed(o);
    DoorsAsListed(o);
    RoomSquaresAsListed(o);
    SlabAsListed(o);
    PlacedAsGroups(o, OakFrom(o), StoneFrom(o), DoorsFrom(o), CobbleFrom(o), SlabFrom(o));
    ListedGroups(o);
  }

  /** From the test's start (0, 64, 0), whatever the turtle faced before
      the first call turned it: the turtle ends at (-6, 64, -1) facing +x,
      and what it put, sorted, is the test's listing, sorted. */
  lemma DemoMatchesListing(s: TurtleState)
    requires s.pos == DemoOrigin && s.placed == []
    ensures Steps(s, DemoCalls).pos == Point(-6, 64, -1) && Steps(s, DemoCalls).facing == 90
    ensures multiset(Steps(s, DemoCalls).placed) == multiset(DemoListed)
  {
    DemoFromNothing(s, s.pos);
    PlacedAsListed(s.pos);
    ListingFromOrigin();
    SameBagThrough(Steps(s, DemoCalls).placed, PlacedFrom(s.pos), ListedFrom(s.pos), DemoListed);
  }

  lemma SameBagThrough<T>(t: seq<T>, a: seq<T>, b: seq<T>, c: seq<T>)
    requires t == a && multiset(a) == multiset(b) && b == c
    ensures multiset(t) == multiset(c)
  {
  }

  /** The test's body from any start: `TurtleBuilder.at(o)` and the chain
      of calls. The turtle ends one block south of the second door, facing
      +x; the io was handed what PlacedFrom lists, which holds the listing's
      blocks. */
  method RunDemo(o: Point) returns (tb: TurtleBuilder)
    ensures fresh(tb)
    ensures tb.pos == Point(o.x - 6, o.y, o.z - 1) && tb.facing == 90
    ensures tb.placed == PlacedFrom(o)
    ensures multiset(tb.placed) == multiset(ListedFrom(o))
  {
    tb := TurtleBuilder.At(o);
    ghost var s0 := tb.State();
    var _ := tb.Then(DemoCalls);
    DemoFromNothing(s0, o);
    PlacedAsListed(o);
  }

  /** The chain from a turtle that has put nothing yet. */
  lemma DemoFromNothing(s: TurtleState, o: Point)
    requires s.pos == o && s.placed == []
    ensures Steps(s, DemoCalls) == TurtleState(Point(o.x - 6, o.y, o.z - 1), 90, PlacedFrom(o))
  {
    DemoFromNothingSized(s, o, 7, 7, 7, 3, 7, 7);
  }

  lemma DemoFromNothingSized(s: TurtleState, o: Point, fw: int, fd: int, n: int, r: int, rw: int, rd: int)
    requires s.pos == o && s.placed == []
    ensures Steps(s, DemoCallsSized(fw, fd, n, r, rw, rd))
      == TurtleState(Point(o.x - 6, o.y, o.z - 1), 90, PlacedSized(o, fw, fd, n, r, rw, rd))
  {
    DemoRunSized(s, fw, fd, n, r, rw, rd);
    AfterNothing(s.placed, PlacedSized(o, fw, fd, n, r, rw, rd));
  }
}
