// The `tinyRoom` turtle command (scripts/turtle-commands/tinyRoom.ts): four
// cobblestone walls of three blocks with a right turn between each.
module TinyRooms {
  import opened Geometry
  import opened Blocks
  import opened Turtles
  import opened JsMath
  import opened Spans

  /** Four walls of n blocks of t, turning right between them. */
  function SquareCalls(t: Material, n: int): seq<Call>
  {
    WallTurn(t, n) + WallTurn(t, n) + WallTurn(t, n) + [Wall(t, n)]
  }

  /** One wall and the right turn after it. */
  function WallTurn(t: Material, n: int): seq<Call>
  {
    [Wall(t, n), TurnRight]
  }

  const TinyRoomCalls: seq<Call> := SquareCalls(Cobblestone, 3)

  /** `tinyRoom(tb)`: the seven calls on the builder it is given, which it
      hands back. */
  method TinyRoom(tb: TurtleBuilder) returns (same: TurtleBuilder)
    modifies tb
    ensures same == tb && tb.State() == Steps(old(tb.State()), TinyRoomCalls)
  {
    ghost var s := tb.State();
    var b := tb.Wall(Cobblestone, 3);
    b := tb.TurnRight();
    ghost var s1 := tb.State();
    WallTurnStep(s, Cobblestone, 3);
    b := tb.Wall(Cobblestone, 3);
    b := tb.TurnRight();
    ghost var s2 := tb.State();
    WallTurnStep(s1, Cobblestone, 3);
    b := tb.Wall(Cobblestone, 3);
    b := tb.TurnRight();
    WallTurnStep(s2, Cobblestone, 3);
    SquareSplit(s, Cobblestone, 3);
    b := tb.Wall(Cobblestone, 3);
    same := tb;
  }

  /** A wall and a right turn. */
  lemma WallTurnStep(s: TurtleState, t: Material, n: int)
    ensures Steps(s, WallTurn(t, n))
      == TurtleState(Move(s.pos, s.facing, Max(n, 0)), Turn(s.facing, 90), s.placed + Line(s.pos, s.facing, t, n))
  {
    StepsSnoc(s, [], Wall(t, n));
    assert [] + [Wall(t, n)] == [Wall(t, n)];
    StepsSnoc(s, [Wall(t, n)], TurnRight);
    assert [Wall(t, n)] + [TurnRight] == WallTurn(t, n);
  }

  /** The square as three wall-and-turns and a last wall. */
  lemma SquareSplit(s: TurtleState, t: Material, n: int)
    ensures var w := WallTurn(t, n);
      Steps(s, SquareCalls(t, n)) == Step(Steps(Steps(Steps(s, w), w), w), Wall(t, n))
  {
    var w := WallTurn(t, n);
    StepsAppend(s, w, w);
    StepsAppend(s, w + w, w);
    StepsSnoc(s, w + w + w, Wall(t, n));
  }

  /** Where four walls of n blocks, turning right between them, end. */
  function SquareEnd(p: Point, facing: int, n: int): Point
  {
    var m := Max(n, 0);
    var f1 := Turn(facing, 90);
    var f2 := Turn(f1, 90);
    Move(Move(Move(Move(p, facing, m), f1, m), f2, m), Turn(f2, 90), m)
  }

  /** The placements of four walls of n blocks of t started at p facing
      `facing`, turning right after each of the first three. */
  function SquareWalls(p: Point, facing: int, t: Material, n: int): (r: seq<Placement>)
    ensures |r| == 4 * Max(n, 0)
  {
    var m := Max(n, 0);
    var f1 := Turn(facing, 90);
    var f2 := Turn(f1, 90);
    var f3 := Turn(f2, 90);
    var p1 := Move(p, facing, m);
    var p2 := Move(p1, f1, m);
    var p3 := Move(p2, f2, m);
    Line(p, facing, t, n) + Line(p1, f1, t, n) + Line(p2, f2, t, n) + Line(p3, f3, t, n)
  }

  /** Running the four walls: three right turns, the walls' placements
      appended, and the turtle at the square's far corner. */
  lemma SquareUnrolled(s: TurtleState, t: Material, n: int)
    ensures Steps(s, SquareCalls(t, n))
      == TurtleState(SquareEnd(s.pos, s.facing, n), Turn(Turn(Turn(s.facing, 90), 90), 90),
                     s.placed + SquareWalls(s.pos, s.facing, t, n))
  {
    SquarePos(s, t, n);
    SquareFacing(s, t, n);
    SquarePlaced(s, t, n);
  }

  lemma SquarePos(s: TurtleState, t: Material, n: int)
    ensures Steps(s, SquareCalls(t, n)).pos == SquareEnd(s.pos, s.facing, n)
  {
    var w := WallTurn(t, n);
    var s1 := Steps(s, w);
    var s2 := Steps(s1, w);
    SquareSplit(s, t, n);
    WallTurnStep(s, t, n);
    WallTurnStep(s1, t, n);
    WallTurnStep(s2, t, n);
  }

  lemma SquareFacing(s: TurtleState, t: Material, n: int)
    ensures Steps(s, SquareCalls(t, n)).facing == Turn(Turn(Turn(s.facing, 90), 90), 90)
  {
    var w := WallTurn(t, n);
    var s1 := Steps(s, w);
    var s2 := Steps(s1, w);
    SquareSplit(s, t, n);
    WallTurnStep(s, t, n);
    WallTurnStep(s1, t, n);
    WallTurnStep(s2, t, n);
  }

  lemma SquarePlaced(s: TurtleState, t: Material, n: int)
    ensures Steps(s, SquareCalls(t, n)).placed == s.placed + SquareWalls(s.pos, s.facing, t, n)
  {
    var w := WallTurn(t, n);
    var s1 := Steps(s, w);
    var s2 := Steps(s1, w);
    var s3 := Steps(s2, w);
    SquareSplit(s, t, n);
    WallTurnStep(s, t, n);
    WallTurnStep(s1, t, n);
    WallTurnStep(s2, t, n);
    var a, b, c, d := Line(s.pos, s.facing, t, n), Line(s1.pos, s1.facing, t, n), Line(s2.pos, s2.facing, t, n), Line(s3.pos, s3.facing, t, n);
    assert SquareWalls(s.pos, s.facing, t, n) == a + b + c + d;
    AppendFour(s.placed, a, b, c, d);
  }

  /** From a compass facing, the cells of the four walls: the sides of the
      square, one wall per side. */
  lemma SquareMember(p: Point, facing: int, t: Material, n: int, q: Placement)
    requires Compass(facing) && n >= 0
    ensures var f1 := Turn(facing, 90);
      var f2 := Turn(f1, 90);
      var f3 := Turn(f2, 90);
      var p1 := Move(p, facing, n);
      var p2 := Move(p1, f1, n);
      var p3 := Move(p2, f2, n);
      q in SquareWalls(p, facing, t, n) <==>
        q.block == t &&
        (Along(p, facing, n, q.point) || Along(p1, f1, n, q.point) || Along(p2, f2, n, q.point) || Along(p3, f3, n, q.point))
  {
    var f1 := Turn(facing, 90);
    var f2 := Turn(f1, 90);
    var f3 := Turn(f2, 90);
    RightOfCompass(facing);
    RightOfCompass(f1);
    RightOfCompass(f2);
    var p1 := Move(p, facing, n);
    var p2 := Move(p1, f1, n);
    var p3 := Move(p2, f2, n);
    var a, b, c, d := Line(p, facing, t, n), Line(p1, f1, t, n), Line(p2, f2, t, n), Line(p3, f3, t, n);
    assert SquareWalls(p, facing, t, n) == a + b + c + d;
    MemberFour(a, b, c, d, q);
    LineMember(p, facing, t, n, q);
    LineMember(p1, f1, t, n, q);
    LineMember(p2, f2, t, n, q);
    LineMember(p3, f3, t, n, q);
  }

  /** From a compass facing the four walls never put the same cell twice:
      each wall stops one short of the corner the next one starts from. */
  lemma SquareDistinct(p: Point, facing: int, t: Material, n: int)
    requires Compass(facing)
    ensures Distinct(SquareWalls(p, facing, t, n))
  {
    var m := Max(n, 0);
    var f1 := Turn(facing, 90);
    var f2 := Turn(f1, 90);
    var f3 := Turn(f2, 90);
    RightOfCompass(facing);
    RightOfCompass(f1);
    RightOfCompass(f2);
    var p1 := Move(p, facing, m);
    var p2 := Move(p1, f1, m);
    var p3 := Move(p2, f2, m);
    var a, b, c, d := Line(p, facing, t, n), Line(p1, f1, t, n), Line(p2, f2, t, n), Line(p3, f3, t, n);
    LineDistinct(p, facing, t, n);
    LineDistinct(p1, f1, t, n);
    LineDistinct(p2, f2, t, n);
    LineDistinct(p3, f3, t, n);
    forall q | q in a ensures q !in b {
      LineMember(p, facing, t, n, q);
      LineMember(p1, f1, t, n, q);
    }
    DistinctAppend(a, b);
    forall q | q in a + b ensures q !in c {
      LineMember(p, facing, t, n, q);
      LineMember(p1, f1, t, n, q);
      LineMember(p2, f2, t, n, q);
    }
    DistinctAppend(a + b, c);
    forall q | q in a + b + c ensures q !in d {
      LineMember(p, facing, t, n, q);
      LineMember(p1, f1, t, n, q);
      LineMember(p2, f2, t, n, q);
      LineMember(p3, f3, t, n, q);
    }
    DistinctAppend(a + b + c, d);
  }

  /** Every placement of the four walls is of the walls' block type. */
  lemma SquareBlocks(p: Point, facing: int, t: Material, n: int)
    ensures forall k :: 0 <= k < |SquareWalls(p, facing, t, n)| ==> SquareWalls(p, facing, t, n)[k].block == t
  {
    var m := Max(n, 0);
    var f1 := Turn(facing, 90);
    var f2 := Turn(f1, 90);
    var f3 := Turn(f2, 90);
    var p1 := Move(p, facing, m);
    var p2 := Move(p1, f1, m);
    var p3 := Move(p2, f2, m);
    LineBlocks(p, facing, t, n);
    LineBlocks(p1, f1, t, n);
    LineBlocks(p2, f2, t, n);
    LineBlocks(p3, f3, t, n);
  }

  /** Four walls of n blocks of t after what was already placed. */
  lemma SquarePuts(s: TurtleState, t: Material, n: int)
    requires n >= 0
    ensures var e := Steps(s, SquareCalls(t, n));
      && |e.placed| == |s.placed| + 4 * n
      && e.placed[..|s.placed|] == s.placed
      && (forall k :: |s.placed| <= k < |e.placed| ==> e.placed[k].block == t)
  {
    SquareUnrolled(s, t, n);
    SquareBlocks(s.pos, s.facing, t, n);
    var e := Steps(s, SquareCalls(t, n));
    var w := SquareWalls(s.pos, s.facing, t, n);
    assert e.placed == s.placed + w;
    forall k | |s.placed| <= k < |e.placed| ensures e.placed[k].block == t {
      assert e.placed[k] == w[k - |s.placed|];
    }
  }

  /** Twelve cobblestone puts after what was already placed. */
  lemma TinyRoomPuts(s: TurtleState)
    ensures var e := Steps(s, TinyRoomCalls);
      && |e.placed| == |s.placed| + 12
      && e.placed[..|s.placed|] == s.placed
      && (forall k :: |s.placed| <= k < |e.placed| ==> e.placed[k].block == Cobblestone)
  {
    SquarePuts(s, Cobblestone, 3);
  }

  /** Three right turns: from a facing in [0, 360) the room ends facing
      270 degrees further round. */
  lemma TinyRoomFacing(s: TurtleState)
    requires 0 <= s.facing < 360
    ensures Steps(s, TinyRoomCalls).facing == Turn(s.facing, 270)
  {
    SquareUnrolled(s, Cobblestone, 3);
    var f1 := Turn(s.facing, 90);
    TurnAdd(s.facing, 90, 90);
    TurnAdd(s.facing, 180, 90);
  }

  /** From a compass facing the four walls close the square: the turtle
      ends on its starting cell. */
  lemma SquareReturns(s: TurtleState, t: Material, n: int)
    requires Compass(s.facing)
    ensures Steps(s, SquareCalls(t, n)).pos == s.pos
  {
    SquareUnrolled(s, t, n);
    var f1 := Turn(s.facing, 90);
    var f2 := Turn(f1, 90);
    RightOfCompass(s.facing);
    RightOfCompass(f1);
    RightOfCompass(f2);
  }

  lemma TinyRoomReturns(s: TurtleState)
    requires Compass(s.facing)
    ensures Steps(s, TinyRoomCalls).pos == s.pos
  {
    SquareReturns(s, Cobblestone, 3);
  }
}
