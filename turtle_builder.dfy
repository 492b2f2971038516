// The turtle builder (scripts/TurtleBuilder.ts): a cursor with a position
// and a facing in degrees that places blocks through its io as it moves.
// The io is modelled by the list of placements it has been handed.
module Turtles {
  import opened JsMath
  import opened Geometry
  import opened Blocks
  import opened Spans

  /** One `io.put(point, block)` call. */
  datatype Placement = Placement(point: Point, block: Material)

  /** `_move(pos, facing, n)`: facing 0 is +z, 90 is +x, 180 is -z and 270
      is -x; any other facing leaves the position where it is. */
  function Move(p: Point, facing: int, n: int): Point
  {
    if facing == 0 then Point(p.x, p.y, p.z + n)
    else if facing == 90 then Point(p.x + n, p.y, p.z)
    else if facing == 180 then Point(p.x, p.y, p.z - n)
    else if facing == 270 then Point(p.x - n, p.y, p.z)
    else p
  }

  /** A facing one of the four compass directions `_move` understands. */
  predicate Compass(facing: int)
  {
    facing == 0 || facing == 90 || facing == 180 || facing == 270
  }

  /** A turn by the given number of degrees, reduced with JavaScript's
      `% 360`. */
  function Turn(facing: int, degrees: int): (f: int)
    ensures -360 < f < 360
    ensures facing + degrees >= 0 ==> 0 <= f
  {
    Rem(facing + degrees, 360)
  }

  /** The placements of `wall(t, n)`: the current cell and the next n-1
      cells ahead. */
  function Line(p: Point, facing: int, t: Material, n: int): (r: seq<Placement>)
    ensures |r| == Max(n, 0)
    decreases n
  {
    if n <= 0 then [] else Line(p, facing, t, n - 1) + [Placement(Move(p, facing, n - 1), t)]
  }

  /** The placements of one column of `fill`, dz from 0 up. */
  function FillColumn(p: Point, t: Material, dx: int, depth: int): (r: seq<Placement>)
    ensures |r| == Max(depth, 0)
    decreases depth
  {
    if depth <= 0 then []
    else FillColumn(p, t, dx, depth - 1) + [Placement(Point(p.x + dx, p.y, p.z + depth - 1), t)]
  }

  /** The placements of `fill(t, width, depth)`: dx outer, dz inner. */
  function FillArea(p: Point, t: Material, width: int, depth: int): seq<Placement>
    decreases width
  {
    if width <= 0 then [] else FillArea(p, t, width - 1, depth) + FillColumn(p, t, width - 1, depth)
  }

  /** The builder's state: where it is, where it faces and what its io has
      been handed so far. */
  datatype TurtleState = TurtleState(pos: Point, facing: int, placed: seq<Placement>)

  /** The builder's own operations, as values, for the bodies of `then`
      and `layer`. */
  datatype Call =
    | Face(degrees: int)
    | Wall(wallType: Material, length: int)
    | Door(doorType: Material)
    | Window(windowType: Material)
    | TurnRight | TurnLeft | TurnAround
    | Forward(n: int) | Backward(n: int) | Left(n: int) | Right(n: int)
    | Up(n: int) | Down(n: int)
    | Fill(fillType: Material, width: int, depth: int)

  /** What each operation does to the state. */
  function Step(s: TurtleState, c: Call): TurtleState
  {
    match c
    case Face(d) => s.(facing := Rem(d, 360))
    case Wall(t, n) => s.(pos := Move(s.pos, s.facing, Max(n, 0)), placed := s.placed + Line(s.pos, s.facing, t, n))
    case Door(t) => s.(pos := Move(s.pos, s.facing, 1), placed := s.placed + [Placement(s.pos, t)])
    case Window(t) => s.(placed := s.placed + [Placement(s.pos, t)])
    case TurnRight => s.(facing := Turn(s.facing, 90))
    case TurnLeft => s.(facing := Turn(s.facing, 270))
    case TurnAround => s.(facing := Turn(s.facing, 180))
    case Forward(n) => s.(pos := Move(s.pos, s.facing, n))
    case Backward(n) => s.(pos := Move(s.pos, Turn(s.facing, 180), n))
    case Left(n) => s.(pos := Move(s.pos, Turn(s.facing, 270), n))
    case Right(n) => s.(pos := Move(s.pos, Turn(s.facing, 90), n))
    case Up(n) => s.(pos := Point(s.pos.x, s.pos.y + n, s.pos.z))
    case Down(n) => s.(pos := Point(s.pos.x, s.pos.y - n, s.pos.z))
    case Fill(t, w, d) => s.(placed := s.placed + FillArea(s.pos, t, w, d))
  }

  /** Operations one after another. */
  function Steps(s: TurtleState, calls: seq<Call>): TurtleState
    decreases |calls|
  {
    if calls == [] then s else Step(Steps(s, calls[..|calls| - 1]), calls[|calls| - 1])
  }

  // ---- properties -----------------------------------------------------------

  /** Moves along one facing add up, and never change the height. */
  lemma MoveAdditive(p: Point, facing: int, a: int, b: int)
    ensures Move(Move(p, facing, a), facing, b) == Move(p, facing, a + b)
    ensures Move(p, facing, a).y == p.y
  {
  }

  /** For a compass facing, moving back the other way returns to the
      start; left and right cancel likewise. */
  lemma MoveReverses(p: Point, facing: int, n: int)
    requires Compass(facing)
    ensures Compass(Turn(facing, 180)) && Compass(Turn(facing, 90)) && Compass(Turn(facing, 270))
    ensures Move(Move(p, facing, n), Turn(facing, 180), n) == p
    ensures Move(Move(p, Turn(facing, 270), n), Turn(facing, 90), n) == p
  {
  }

  /** A right turn from a compass facing, without the remainder. */
  lemma RightOfCompass(facing: int)
    requires Compass(facing)
    ensures Turn(facing, 90) == (if facing == 270 then 0 else facing + 90)
    ensures Compass(Turn(facing, 90))
  {
  }

  /** Two turns that never go below zero add up. */
  lemma TurnAdd(facing: int, a: int, b: int)
    requires facing + a >= 0 && b >= 0
    ensures Turn(Turn(facing, a), b) == Turn(facing, a + b)
  {
    var x := facing + a;
    assert x == 360 * (x / 360) + x % 360;
    assert x + b == 360 * (x / 360) + (x % 360 + b);
  }

  /** A facing that is not a compass direction never moves. */
  lemma OffCompassStays(p: Point, facing: int, n: int)
    requires !Compass(facing)
    ensures Move(p, facing, n) == p
  {
  }

  /** From any facing in [0, 360), four right turns come back to it, and
      so do a right turn followed by a left turn. */
  lemma TurnsRestore(facing: int)
    requires 0 <= facing < 360
    ensures Turn(Turn(Turn(Turn(facing, 90), 90), 90), 90) == facing
    ensures Turn(Turn(facing, 90), 270) == facing
    ensures Turn(Turn(facing, 180), 180) == facing
  {
    TurnAdd(facing, 90, 90);
    TurnAdd(facing, 180, 90);
    TurnAdd(facing, 270, 90);
    TurnAdd(facing, 90, 270);
    TurnAdd(facing, 180, 180);
    assert Turn(facing, 360) == facing;
  }

  /** `face(d)` keeps a negative facing negative: `face(-90)` faces -90,
      a facing `_move` does not understand, and one right turn then faces
      0. */
  lemma NegativeFace()
    ensures Rem(-90, 360) == -90 && !Compass(Rem(-90, 360)) && Turn(Rem(-90, 360), 90) == 0
  {
  }

  /** A wall of n puts its k-th block k cells ahead. */
  lemma {:induction false} LineCells(p: Point, facing: int, t: Material, n: int, k: int)
    requires 0 <= k < n
    ensures Line(p, facing, t, n)[k] == Placement(Move(p, facing, k), t)
    decreases n
  {
    if k < n - 1 {
      LineCells(p, facing, t, n - 1, k);
    }
  }

  /** A wall along a compass facing never puts the same cell twice. */
  lemma LineDistinct(p: Point, facing: int, t: Material, n: int)
    requires Compass(facing)
    ensures forall i, j :: 0 <= i < j < |Line(p, facing, t, n)| ==> Line(p, facing, t, n)[i] != Line(p, facing, t, n)[j]
  {
    forall i, j | 0 <= i < j < |Line(p, facing, t, n)|
      ensures Line(p, facing, t, n)[i] != Line(p, facing, t, n)[j]
    {
      LineCells(p, facing, t, n, i);
      LineCells(p, facing, t, n, j);
    }
  }

  /** A fill puts exactly the cells of the width x depth rectangle at the
      current height, one block each. */
  lemma {:induction false} FillColumnCells(p: Point, t: Material, dx: int, depth: int, q: Placement)
    ensures q in FillColumn(p, t, dx, depth) <==> q.block == t && q.point.x == p.x + dx && q.point.y == p.y && p.z <= q.point.z < p.z + depth
    decreases depth
  {
    if depth > 0 {
      FillColumnCells(p, t, dx, depth - 1, q);
    }
  }

  lemma {:induction false} FillAreaCells(p: Point, t: Material, width: int, depth: int, q: Placement)
    ensures q in FillArea(p, t, width, depth) <==>
      q.block == t && q.point.y == p.y && p.x <= q.point.x < p.x + width && p.z <= q.point.z < p.z + depth
    decreases width
  {
    if width > 0 {
      FillAreaCells(p, t, width - 1, depth, q);
      FillColumnCells(p, t, width - 1, depth, q);
    }
  }

  lemma {:induction false} FillAreaSize(p: Point, t: Material, width: int, depth: int)
    requires width >= 0 && depth >= 0
    ensures |FillArea(p, t, width, depth)| == width * depth
    decreases width
  {
    if width > 0 {
      FillAreaSize(p, t, width - 1, depth);
    }
  }

  lemma UpThenDown(s: TurtleState, n: int)
    ensures Step(Step(s, Up(n)), Down(n)) == s
  {
  }

  lemma {:induction false} StepsAppend(s: TurtleState, a: seq<Call>, b: seq<Call>)
    ensures Steps(s, a + b) == Steps(Steps(s, a), b)
    decreases |b|
  {
    if b == [] {
      assert a + b == a;
    } else {
      assert (a + b)[..|a + b| - 1] == a + b[..|b| - 1];
      StepsAppend(s, a, b[..|b| - 1]);
    }
  }

  lemma StepsSnoc(s: TurtleState, calls: seq<Call>, c: Call)
    ensures Steps(s, calls + [c]) == Step(Steps(s, calls), c)
  {
    assert (calls + [c])[..|calls|] == calls;
  }

  /** Every block of a wall is of the wall's type. */
  lemma {:induction false} LineBlocks(p: Point, facing: int, t: Material, n: int)
    ensures forall k :: 0 <= k < |Line(p, facing, t, n)| ==> Line(p, facing, t, n)[k].block == t
    decreases n
  {
    if n > 0 {
      LineBlocks(p, facing, t, n - 1);
    }
  }

  /** The n cells a wall along a compass facing covers, starting at p. */
  predicate Along(p: Point, facing: int, n: int, q: Point)
  {
    q.y == p.y &&
    if facing == 0 then q.x == p.x && p.z <= q.z < p.z + n
    else if facing == 90 then q.z == p.z && p.x <= q.x < p.x + n
    else if facing == 180 then q.x == p.x && p.z - n < q.z <= p.z
    else q.z == p.z && p.x - n < q.x <= p.x
  }

  /** A wall along a compass facing puts exactly the cells it runs along. */
  lemma {:induction false} LineMember(p: Point, facing: int, t: Material, n: int, q: Placement)
    requires Compass(facing)
    ensures q in Line(p, facing, t, n) <==> q.block == t && Along(p, facing, n, q.point)
    decreases n
  {
    if n > 0 {
      LineMember(p, facing, t, n - 1, q);
    }
  }

  lemma {:induction false} FillColumnDistinct(p: Point, t: Material, dx: int, depth: int)
    ensures Distinct(FillColumn(p, t, dx, depth))
    decreases depth
  {
    if depth > 0 {
      FillColumnDistinct(p, t, dx, depth - 1);
      var last := Placement(Point(p.x + dx, p.y, p.z + depth - 1), t);
      FillColumnCells(p, t, dx, depth - 1, last);
      DistinctAppend(FillColumn(p, t, dx, depth - 1), [last]);
    }
  }

  /** A fill never puts the same cell twice. */
  lemma {:induction false} FillAreaDistinct(p: Point, t: Material, width: int, depth: int)
    ensures Distinct(FillArea(p, t, width, depth))
    decreases width
  {
    if width > 0 {
      FillAreaDistinct(p, t, width - 1, depth);
      FillColumnDistinct(p, t, width - 1, depth);
      var done, column := FillArea(p, t, width - 1, depth), FillColumn(p, t, width - 1, depth);
      forall q | q in done ensures q !in column {
        FillAreaCells(p, t, width - 1, depth, q);
        FillColumnCells(p, t, width - 1, depth, q);
      }
      DistinctAppend(done, column);
    }
  }

  /** `layer(fn)`: up one, the body, down one. */
  function LayerCalls(body: seq<Call>): seq<Call>
  {
    [Up(1)] + body + [Down(1)]
  }

  class TurtleBuilder {
    var pos: Point
    var facing: int
    /** What the io has been handed, in order. */
    var placed: seq<Placement>

    function State(): TurtleState
      reads this
    {
      TurtleState(pos, facing, placed)
    }

    constructor (pos: Point, facing: int)
      ensures State() == TurtleState(pos, facing, [])
    {
      this.pos := pos;
      this.facing := facing;
      placed := [];
    }

    /** `TurtleBuilder.at(pos)`: facing 0. */
    static method At(pos: Point) returns (tb: TurtleBuilder)
      ensures fresh(tb) && tb.State() == TurtleState(pos, 0, [])
    {
      tb := new TurtleBuilder(pos, 0);
    }

    method Face(degrees: int) returns (same: TurtleBuilder)
      modifies this
      ensures same == this && State() == Step(old(State()), Call.Face(degrees))
    {
      facing := Rem(degrees, 360);
      return this;
    }

    method Wall(t: Material, length: int) returns (same: TurtleBuilder)
      modifies this
      ensures same == this && State() == Step(old(State()), Call.Wall(t, length))
    {
      var i := 0;
      while i < length
        invariant 0 <= i <= Max(length, 0)
        invariant facing == old(facing)
        invariant pos == Move(old(pos), facing, i)
        invariant placed == old(placed) + Line(old(pos), facing, t, i)
        decreases length - i
      {
        placed := placed + [Placement(pos, t)];
        MoveAdditive(old(pos), facing, i, 1);
        var _ := Forward(1);
        i := i + 1;
      }
      return this;
    }

    method Door(t: Material) returns (same: TurtleBuilder)
      modifies this
      ensures same == this && State() == Step(old(State()), Call.Door(t))
    {
      placed := placed + [Placement(pos, t)];
      var _ := Forward(1);
      return this;
    }

    method Window(t: Material := GlassPane) returns (same: TurtleBuilder)
      modifies this
      ensures same == this && State() == Step(old(State()), Call.Window(t))
    {
      placed := placed + [Placement(pos, t)];
      return this;
    }

    method TurnRight() returns (same: TurtleBuilder)
      modifies this
      ensures same == this && State() == Step(old(State()), Call.TurnRight)
    {
      facing := Rem(facing + 90, 360);
      return this;
    }

    method TurnLeft() returns (same: TurtleBuilder)
      modifies this
      ensures same == this && State() == Step(old(State()), Call.TurnLeft)
    {
      facing := Rem(facing + 270, 360);
      return this;
    }

    method TurnAround() returns (same: TurtleBuilder)
      modifies this
      ensures same == this && State() == Step(old(State()), Call.TurnAround)
    {
      facing := Rem(facing + 180, 360);
      return this;
    }

    method Forward(n: int) returns (same: TurtleBuilder)
      modifies this
      ensures same == this && State() == Step(old(State()), Call.Forward(n))
    {
      pos := Move(pos, facing, n);
      return this;
    }

    method Backward(n: int) returns (same: TurtleBuilder)
      modifies this
      ensures same == this && State() == Step(old(State()), Call.Backward(n))
    {
      pos := Move(pos, Rem(facing + 180, 360), n);
      return this;
    }

    method Left(n: int) returns (same: TurtleBuilder)
      modifies this
      ensures same == this && State() == Step(old(State()), Call.Left(n))
    {
      pos := Move(pos, Rem(facing + 270, 360), n);
      return this;
    }

    method Right(n: int) returns (same: TurtleBuilder)
      modifies this
      ensures same == this && State() == Step(old(State()), Call.Right(n))
    {
      pos := Move(pos, Rem(facing + 90, 360), n);
      return this;
    }

    method Up(n: int) returns (same: TurtleBuilder)
      modifies this
      ensures same == this && State() == Step(old(State()), Call.Up(n))
    {
      pos := Point(pos.x, pos.y + n, pos.z);
      return this;
    }

    method Down(n: int) returns (same: TurtleBuilder)
      modifies this
      ensures same == this && State() == Step(old(State()), Call.Down(n))
    {
      pos := Point(pos.x, pos.y - n, pos.z);
      return this;
    }

    method Fill(t: Material, width: int, depth: int) returns (same: TurtleBuilder)
      modifies this
      ensures same == this && State() == Step(old(State()), Call.Fill(t, width, depth))
    {
      var dx := 0;
      while dx < width
        invariant 0 <= dx <= Max(width, 0)
        invariant pos == old(pos) && facing == old(facing)
        invariant placed == old(placed) + FillArea(pos, t, dx, depth)
        decreases width - dx
      {
        FillOneColumn(t, dx, depth);
        dx := dx + 1;
      }
      return this;
    }

    /** The inner loop of `fill`. */
    method FillOneColumn(t: Material, dx: int, depth: int)
      modifies this
      ensures pos == old(pos) && facing == old(facing)
      ensures placed == old(placed) + FillColumn(pos, t, dx, depth)
    {
      var dz := 0;
      while dz < depth
        invariant 0 <= dz <= Max(depth, 0)
        invariant pos == old(pos) && facing == old(facing)
        invariant placed == old(placed) + FillColumn(pos, t, dx, dz)
        decreases depth - dz
      {
        placed := placed + [Placement(Point(pos.x + dx, pos.y, pos.z + dz), t)];
        dz := dz + 1;
      }
    }

    /** One operation, by its value. */
    method Perform(c: Call)
      modifies this
      ensures State() == Step(old(State()), c)
    {
      var tb: TurtleBuilder;
      match c
      case Face(d) => tb := Face(d);
      case Wall(t, n) => tb := Wall(t, n);
      case Door(t) => tb := Door(t);
      case Window(t) => tb := Window(t);
      case TurnRight => tb := TurnRight();
      case TurnLeft => tb := TurnLeft();
      case TurnAround => tb := TurnAround();
      case Forward(n) => tb := Forward(n);
      case Backward(n) => tb := Backward(n);
      case Left(n) => tb := Left(n);
      case Right(n) => tb := Right(n);
      case Up(n) => tb := Up(n);
      case Down(n) => tb := Down(n);
      case Fill(t, w, d) => tb := Fill(t, w, d);
    }

    /** `then(fn)`: the body's operations, in order. */
    method Then(body: seq<Call>) returns (same: TurtleBuilder)
      modifies this
      ensures same == this && State() == Steps(old(State()), body)
    {
      for i := 0 to |body|
        invariant State() == Steps(old(State()), body[..i])
      {
        assert body[..i + 1][..i] == body[..i];
        Perform(body[i]);
      }
      assert body[..|body|] == body;
      return this;
    }

    /** `layer(fn)`: up one, the body, down one. */
    method Layer(body: seq<Call>) returns (same: TurtleBuilder)
      modifies this
      ensures same == this && State() == Steps(old(State()), LayerCalls(body))
    {
      ghost var s0 := State();
      var tb := Up(1);
      tb := Then(body);
      tb := Down(1);
      assert [Call.Up(1)] + body == LayerCalls(body)[..|body| + 1];
      StepsAppend(s0, [Call.Up(1)], body);
      assert Steps(s0, [Call.Up(1)]) == Step(s0, Call.Up(1)) by { assert [Call.Up(1)][..0] == []; }
      return this;
    }
  }
}
