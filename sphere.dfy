// The animated hollow sphere (scripts/geometry/surfaces/sphere.ts). The
// module-level list of the previous frame's points is the one field of a
// drawer object; the block sink is the sequence of `put` calls made.
module Spheres {
  import opened Geometry
  import opened Blocks
  import opened Spans

  /** One `blockIO.put(point, block)` call. */
  datatype Write = Write(point: Point, block: Block)

  /** Offset (x, y, z) from the centre lies within one block of the
      sphere's surface: its squared distance is between (r-1)^2 and
      (r+1)^2. */
  predicate InShell(radius: int, x: int, y: int, z: int)
  {
    (radius - 1) * (radius - 1) <= x * x + y * y + z * z <= (radius + 1) * (radius + 1)
  }

  /** What the innermost loop body collects at offset (x, y, z). */
  function ShellCell(center: Point, radius: int, x: int, y: int): int -> seq<Point>
  {
    z => if InShell(radius, x, y, z) then [Point(center.x + x, center.y + y, center.z + z)] else []
  }

  /** What the z loop collects for fixed x and y. */
  function ShellRow(center: Point, radius: int, x: int): int -> seq<Point>
  {
    y => Span(-radius, radius + 1, ShellCell(center, radius, x, y))
  }

  /** What the y loop collects for fixed x. */
  function ShellPlane(center: Point, radius: int): int -> seq<Point>
  {
    x => Span(-radius, radius + 1, ShellRow(center, radius, x))
  }

  /** The points of one frame, x outermost, then y, then z. */
  function ShellPoints(center: Point, radius: int): seq<Point>
  {
    Span(-radius, radius + 1, ShellPlane(center, radius))
  }

  /** One cell of the innermost loop holds at most its own point. */
  lemma CellMember(center: Point, radius: int, x: int, y: int, z: int, p: Point)
    ensures p in ShellCell(center, radius, x, y)(z) <==>
      InShell(radius, x, y, z) && p == Point(center.x + x, center.y + y, center.z + z)
  {
  }

  /** The z loop for (x, y) collects exactly the shell points with those
      offsets. */
  lemma RowMember(center: Point, radius: int, x: int, y: int, p: Point)
    ensures p in ShellRow(center, radius, x)(y) <==>
      p.x == center.x + x && p.y == center.y + y &&
      -radius <= p.z - center.z <= radius && InShell(radius, x, y, p.z - center.z)
  {
    SpanMember(-radius, radius + 1, ShellCell(center, radius, x, y), p);
    if p in ShellRow(center, radius, x)(y) {
      var z :| -radius <= z < radius + 1 && p in ShellCell(center, radius, x, y)(z);
      CellMember(center, radius, x, y, z, p);
    }
    if p.x == center.x + x && p.y == center.y + y &&
       -radius <= p.z - center.z <= radius && InShell(radius, x, y, p.z - center.z) {
      CellMember(center, radius, x, y, p.z - center.z, p);
    }
  }

  /** The y loop for x collects exactly the shell points with that x
      offset. */
  lemma PlaneMember(center: Point, radius: int, x: int, p: Point)
    ensures p in ShellPlane(center, radius)(x) <==>
      p.x == center.x + x && -radius <= p.y - center.y <= radius &&
      -radius <= p.z - center.z <= radius && InShell(radius, x, p.y - center.y, p.z - center.z)
  {
    SpanMember(-radius, radius + 1, ShellRow(center, radius, x), p);
    if p in ShellPlane(center, radius)(x) {
      var y :| -radius <= y < radius + 1 && p in ShellRow(center, radius, x)(y);
      RowMember(center, radius, x, y, p);
    }
    RowMember(center, radius, x, p.y - center.y, p);
  }

  /** A frame holds exactly the points within the bounding cube whose
      offset from the centre lies in the shell. */
  lemma ShellMember(center: Point, radius: int, p: Point)
    ensures p in ShellPoints(center, radius) <==>
      -radius <= p.x - center.x <= radius && -radius <= p.y - center.y <= radius &&
      -radius <= p.z - center.z <= radius &&
      InShell(radius, p.x - center.x, p.y - center.y, p.z - center.z)
  {
    SpanMember(-radius, radius + 1, ShellPlane(center, radius), p);
    if p in ShellPoints(center, radius) {
      var x :| -radius <= x < radius + 1 && p in ShellPlane(center, radius)(x);
      PlaneMember(center, radius, x, p);
    }
    PlaneMember(center, radius, p.x - center.x, p);
  }

  /** No point of a frame is listed twice, so each is written once. */
  lemma ShellDistinct(center: Point, radius: int)
    ensures Distinct(ShellPoints(center, radius))
  {
    forall x | -radius <= x < radius + 1
      ensures Distinct(ShellPlane(center, radius)(x))
    {
      forall y | -radius <= y < radius + 1
        ensures Distinct(ShellRow(center, radius, x)(y))
      {
        forall z1, z2, p | -radius <= z1 < z2 < radius + 1 && p in ShellCell(center, radius, x, y)(z1)
          ensures p !in ShellCell(center, radius, x, y)(z2)
        {
          CellMember(center, radius, x, y, z1, p);
          CellMember(center, radius, x, y, z2, p);
        }
        SpanDistinct(-radius, radius + 1, ShellCell(center, radius, x, y));
      }
      forall y1, y2, p | -radius <= y1 < y2 < radius + 1 && p in ShellRow(center, radius, x)(y1)
        ensures p !in ShellRow(center, radius, x)(y2)
      {
        RowMember(center, radius, x, y1, p);
        RowMember(center, radius, x, y2, p);
      }
      SpanDistinct(-radius, radius + 1, ShellRow(center, radius, x));
    }
    forall x1, x2, p | -radius <= x1 < x2 < radius + 1 && p in ShellPlane(center, radius)(x1)
      ensures p !in ShellPlane(center, radius)(x2)
    {
      PlaneMember(center, radius, x1, p);
      PlaneMember(center, radius, x2, p);
    }
    SpanDistinct(-radius, radius + 1, ShellPlane(center, radius));
  }

  /** The innermost loop body's test, with the squared distances computed
      beforehand, decides what the cell collects. */
  lemma CellIs(center: Point, radius: int, x: int, y: int, z: int, d2: int, lo: int, hi: int)
    requires d2 == x * x + y * y + z * z
    requires lo == (radius - 1) * (radius - 1) && hi == (radius + 1) * (radius + 1)
    ensures ShellCell(center, radius, x, y)(z) ==
      if lo <= d2 <= hi then [Point(center.x + x, center.y + y, center.z + z)] else []
  {
  }

  /** A finished loop over [-radius, radius] covers the whole span, also
      when the radius is negative and the loop never runs. */
  lemma LoopDone<T>(radius: int, i: int, f: int -> seq<T>)
    requires -radius <= i && (i == -radius || i <= radius + 1) && i > radius
    ensures Span(-radius, i, f) == Span(-radius, radius + 1, f)
  {
  }

  /** The `put` calls writing `blockAt(p)` at each point p in order: the
      k-th write is at the k-th point. */
  function WriteAll(ps: seq<Point>, blockAt: Point -> Block): (r: seq<Write>)
    ensures |r| == |ps|
    ensures forall k :: 0 <= k < |ps| ==> r[k] == Write(ps[k], blockAt(ps[k]))
  {
    seq(|ps|, k requires 0 <= k < |ps| => Write(ps[k], blockAt(ps[k])))
  }

  /** One more point, one more write. */
  lemma WriteAllSnoc(before: seq<Write>, ps: seq<Point>, p: Point, blockAt: Point -> Block)
    ensures before + WriteAll(ps + [p], blockAt) == before + WriteAll(ps, blockAt) + [Write(p, blockAt(p))]
  {
    assert WriteAll(ps + [p], blockAt) == WriteAll(ps, blockAt) + [Write(p, blockAt(p))];
  }

  /** Writing two lists in turn writes their concatenation. */
  lemma WriteAllJoin(ps: seq<Point>, qs: seq<Point>, blockAt: Point -> Block)
    ensures WriteAll(ps + qs, blockAt) == WriteAll(ps, blockAt) + WriteAll(qs, blockAt)
  {
    forall k | 0 <= k < |ps| + |qs|
      ensures WriteAll(ps + qs, blockAt)[k] == (WriteAll(ps, blockAt) + WriteAll(qs, blockAt))[k]
    {
      if k >= |ps| {
        assert (ps + qs)[k] == qs[k - |ps|];
      }
    }
  }

  /** Air everywhere: what clearing the previous frame writes. */
  function Cleared(): Point -> Block
  {
    p => Block(Air)
  }

  /** The formula at a fixed tick. */
  function AtTick(formula: (Point, int) -> Block, tick: int): Point -> Block
  {
    p => formula(p, tick)
  }

  /** The innermost loop of `drawSphere`: for fixed x and y offsets, the
      z offsets in [-radius, radius] whose squared distance lies within the
      shell, each written with the formula's block. */
  method ShellRowWrites(center: Point, radius: int, x: int, y: int, tick: int, formula: (Point, int) -> Block)
    returns (points: seq<Point>, writes: seq<Write>)
    requires -radius <= radius + 1
    ensures points == ShellRow(center, radius, x)(y)
    ensures writes == WriteAll(points, AtTick(formula, tick))
  {
    var minDistanceSquared := (radius - 1) * (radius - 1);
    var maxDistanceSquared := (radius + 1) * (radius + 1);
    points, writes := [], [];
    var z := -radius;
    while z <= radius
      invariant -radius <= z <= radius + 1
      invariant points == Span(-radius, z, ShellCell(center, radius, x, y))
      invariant writes == WriteAll(points, AtTick(formula, tick))
    {
      SpanNext(-radius, z, ShellCell(center, radius, x, y));
      var distanceSquared := x * x + y * y + z * z;
      CellIs(center, radius, x, y, z, distanceSquared, minDistanceSquared, maxDistanceSquared);
      if distanceSquared >= minDistanceSquared && distanceSquared <= maxDistanceSquared {
        var point := Point(center.x + x, center.y + y, center.z + z);
        WriteAllSnoc([], points, point, AtTick(formula, tick));
        writes := writes + [Write(point, formula(point, tick))];
        points := points + [point];
      }
      z := z + 1;
    }
  }

  /** The middle loop of `drawSphere`: every y offset for a fixed x. */
  method ShellPlaneWrites(center: Point, radius: int, x: int, tick: int, formula: (Point, int) -> Block)
    returns (points: seq<Point>, writes: seq<Write>)
    ensures points == ShellPlane(center, radius)(x)
    ensures writes == WriteAll(points, AtTick(formula, tick))
  {
    points, writes := [], [];
    var y := -radius;
    while y <= radius
      invariant -radius <= y && (y == -radius || y <= radius + 1)
      invariant points == Span(-radius, y, ShellRow(center, radius, x))
      invariant writes == WriteAll(points, AtTick(formula, tick))
    {
      var rowPoints, rowWrites := ShellRowWrites(center, radius, x, y, tick, formula);
      SpanNext(-radius, y, ShellRow(center, radius, x));
      WriteAllJoin(points, rowPoints, AtTick(formula, tick));
      points := points + rowPoints;
      writes := writes + rowWrites;
      y := y + 1;
    }
    LoopDone(radius, y, ShellRow(center, radius, x));
  }

  /** The drawer and the points it drew last. */
  class SphereDrawer {
    var previous: seq<Point>

    /** The remembered list starts empty. */
    constructor()
      ensures previous == []
    {
      previous := [];
    }

    /** `drawSphere(blockIO, center, radius, tick, formula)`: Air over every
        remembered point, then the formula's block on every point of the new
        frame, which becomes the remembered list. */
    method DrawSphere(center: Point, radius: int, tick: int, formula: (Point, int) -> Block)
      returns (writes: seq<Write>)
      modifies this
      ensures previous == ShellPoints(center, radius)
      ensures writes == WriteAll(old(previous), Cleared()) + WriteAll(previous, AtTick(formula, tick))
      ensures |writes| == |old(previous)| + |previous|
    {
      var cleared := ClearWrites(previous);
      var current, drawn := ShellWrites(center, radius, tick, formula);
      writes := cleared + drawn;
      previous := current;
    }
  }

  /** The first loop of `drawSphere`: Air over every remembered point. */
  method ClearWrites(points: seq<Point>) returns (writes: seq<Write>)
    ensures writes == WriteAll(points, Cleared())
  {
    writes := [];
    var i := 0;
    while i < |points|
      invariant 0 <= i <= |points|
      invariant writes == WriteAll(points[..i], Cleared())
    {
      WriteAllSnoc([], points[..i], points[i], Cleared());
      assert points[..i + 1] == points[..i] + [points[i]];
      writes := writes + [Write(points[i], Block(Air))];
      i := i + 1;
    }
    assert points[..i] == points;
  }

  /** The nested loops of `drawSphere`: the shell's points in loop order and
      the formula's block written on each. */
  method ShellWrites(center: Point, radius: int, tick: int, formula: (Point, int) -> Block)
    returns (points: seq<Point>, writes: seq<Write>)
    ensures points == ShellPoints(center, radius)
    ensures writes == WriteAll(points, AtTick(formula, tick))
  {
    points, writes := [], [];
    var x := -radius;
    while x <= radius
      invariant -radius <= x && (x == -radius || x <= radius + 1)
      invariant points == Span(-radius, x, ShellPlane(center, radius))
      invariant writes == WriteAll(points, AtTick(formula, tick))
    {
      var planePoints, planeWrites := ShellPlaneWrites(center, radius, x, tick, formula);
      SpanNext(-radius, x, ShellPlane(center, radius));
      WriteAllJoin(points, planePoints, AtTick(formula, tick));
      points := points + planePoints;
      writes := writes + planeWrites;
      x := x + 1;
    }
    LoopDone(radius, x, ShellPlane(center, radius));
  }

  /** The first frame of a new drawer writes no Air: only the shell, with
      the formula's blocks. */
  method FirstFrame(center: Point, radius: int, tick: int, formula: (Point, int) -> Block)
    returns (writes: seq<Write>)
    ensures writes == WriteAll(ShellPoints(center, radius), AtTick(formula, tick))
  {
    var drawer := new SphereDrawer();
    writes := drawer.DrawSphere(center, radius, tick, formula);
    assert WriteAll([], Cleared()) == [];
  }

  /** A frame's writes: one per shell point, each point once, each with
      the formula's block at the frame's tick. */
  lemma FrameWrites(center: Point, radius: int, tick: int, formula: (Point, int) -> Block)
    ensures |WriteAll(ShellPoints(center, radius), AtTick(formula, tick))| == |ShellPoints(center, radius)|
    ensures forall k :: 0 <= k < |ShellPoints(center, radius)| ==>
      WriteAll(ShellPoints(center, radius), AtTick(formula, tick))[k]
        == Write(ShellPoints(center, radius)[k], formula(ShellPoints(center, radius)[k], tick))
    ensures Distinct(ShellPoints(center, radius))
  {
    ShellDistinct(center, radius);
  }
}
