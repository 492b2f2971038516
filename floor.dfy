// A width-by-depth slab at local height 0 (scripts/prefabs/Floor.ts).
module Floors {
  import opened Errors
  import opened Geometry
  import opened Blocks
  import opened Puts
  import opened Spans
  import opened PrefabBase

  datatype FloorParams = FloorParams(orientation: Orientation, material: Material, width: int, depth: int)

  /** A constructed floor: width and depth at least 1. */
  type Floor = f: FloorParams | f.width >= 1 && f.depth >= 1 witness FloorParams(ZeroOrientation, Air, 1, 1)

  /** The constructor checks the width before the depth. */
  function New(orientation: Orientation, material: Material, width: int, depth: int): (r: Result<Floor>)
    ensures r.Success? <==> width >= 1 && depth >= 1
    ensures r.Success? ==> r.value == FloorParams(orientation, material, width, depth)
    ensures width < 1 ==> r == Failure(FloorWidthTooSmall)
    ensures width >= 1 && depth < 1 ==> r == Failure(FloorDepthTooSmall)
  {
    if width < 1 then Failure(FloorWidthTooSmall)
    else if depth < 1 then Failure(FloorDepthTooSmall)
    else Success(FloorParams(orientation, material, width, depth))
  }

  /** Width runs along the length axis, depth along the axis a quarter turn
      further. */
  function FloorPoint(q: Quarter, w: int, d: int): Point
  {
    Forward(q).Scale(w).Plus(Forward(q.Next()).Scale(d))
  }

  /** `getFloorPoint(w, d)`: the source's rotation table, which places the
      grid on the frame of `FloorPoint`. */
  function GetFloorPoint(rotation: int, w: int, d: int): (r: Result<Point>)
    ensures !ValidRotation(rotation) ==> r == Failure(InvalidRotation(rotation))
    ensures ValidRotation(rotation) ==> r == Success(FloorPoint(QuarterOf(rotation).value, w, d))
  {
    match rotation
    case 0 => Success(Point(w, 0, d))
    case 90 => Success(Point(-d, 0, w))
    case 180 => Success(Point(-w, 0, -d))
    case 270 => Success(Point(d, 0, -w))
    case _ => Failure(InvalidRotation(rotation))
  }

  function Cell(f: Floor, q: Quarter): (int, int) -> seq<Put>
  {
    (w, d) => [Put(f.orientation, FloorPoint(q, w, d), f.material)]
  }

  /** Width outer, depth inner. */
  function Calls(f: Floor, q: Quarter): seq<Put>
  {
    Grid(0, f.width, 0, f.depth, Cell(f, q))
  }

  function DrawSpec(f: Floor): Drawn
  {
    match QuarterOf(f.orientation.rotation)
    case None => Drawn([], Some(InvalidRotation(f.orientation.rotation)))
    case Some(q) => Drawn(Calls(f, q), None)
  }

  method Draw(f: Floor) returns (r: Drawn)
    ensures r == DrawSpec(f)
  {
    var calls: seq<Put> := [];
    ghost var oq := QuarterOf(f.orientation.rotation);
    for w := 0 to f.width
      invariant oq.None? ==> w == 0 && calls == []
      invariant oq.Some? ==> calls == Span(0, w, GridRow(0, f.depth, Cell(f, oq.value)))
    {
      for d := 0 to f.depth
        invariant oq.None? ==> w == 0 && d == 0 && calls == []
        invariant oq.Some? ==> calls == Span(0, w, GridRow(0, f.depth, Cell(f, oq.value)))
                                        + Span(0, d, GridCell(Cell(f, oq.value), w))
      {
        var p := GetFloorPoint(f.orientation.rotation, w, d);
        if p.Failure? {
          return Drawn(calls, Some(p.error));
        }
        SpanSnoc(Span(0, w, GridRow(0, f.depth, Cell(f, oq.value))), 0, d, GridCell(Cell(f, oq.value), w));
        calls := calls + [Put(f.orientation, p.value, f.material)];
      }
    }
    return Drawn(calls, None);
  }

  /** The child anchor sits over the far corner cell (width-1, depth-1). */
  function ChildOrientation(f: Floor): (r: Result<Orientation>)
    ensures r.Success? <==> ValidRotation(f.orientation.rotation)
    ensures r.Success? ==> r.value == Orientation(
      f.orientation.point.Plus(FloorPoint(QuarterOf(f.orientation.rotation).value, f.width - 1, f.depth - 1)),
      f.orientation.rotation)
  {
    match GetFloorPoint(f.orientation.rotation, f.width - 1, f.depth - 1)
    case Success(p) => Success(Orientation(LocalToWorld(f.orientation, p), f.orientation.rotation))
    case Failure(e) => Failure(e)
  }

  /** The grid frame is one-to-one: different cells give different points. */
  lemma FloorPointInjective(q: Quarter, w1: int, d1: int, w2: int, d2: int)
    ensures FloorPoint(q, w1, d1) == FloorPoint(q, w2, d2) ==> w1 == w2 && d1 == d2
  {
  }

  /** A floor issues width * depth puts, one per cell, all with the floor's
      orientation and material and at local height 0. */
  lemma CallsCover(f: Floor, q: Quarter)
    ensures |Calls(f, q)| == f.width * f.depth
    ensures forall c :: c in Calls(f, q) <==>
      exists w, d :: 0 <= w < f.width && 0 <= d < f.depth && c == Put(f.orientation, FloorPoint(q, w, d), f.material)
  {
    var g := Cell(f, q);
    GridLength(0, f.width, 0, f.depth, g);
    forall c ensures c in Calls(f, q) <==> exists w, d :: 0 <= w < f.width && 0 <= d < f.depth && c in g(w, d) {
      GridMember(0, f.width, 0, f.depth, g, c);
    }
    assert forall w, d :: g(w, d) == [Put(f.orientation, FloorPoint(q, w, d), f.material)];
  }

  /** No cell is put twice. */
  lemma CallsDistinct(f: Floor, q: Quarter)
    ensures Distinct(Calls(f, q))
  {
    ColumnsDistinct(f, q);
    ColumnsDisjoint(f, q);
    SpanDistinct(0, f.width, GridRow(0, f.depth, Cell(f, q)));
  }

  /** Within one column no cell is put twice. */
  lemma ColumnsDistinct(f: Floor, q: Quarter)
    ensures forall w :: 0 <= w < f.width ==> Distinct(GridRow(0, f.depth, Cell(f, q))(w))
  {
    forall w | 0 <= w < f.width ensures Distinct(GridRow(0, f.depth, Cell(f, q))(w)) {
      SpanSingleDistinct(0, f.depth, GridCell(Cell(f, q), w));
    }
  }

  /** Two different columns share no put. */
  lemma ColumnsDisjoint(f: Floor, q: Quarter)
    ensures forall w1, w2, c ::
      0 <= w1 < w2 < f.width && c in GridRow(0, f.depth, Cell(f, q))(w1) ==> c !in GridRow(0, f.depth, Cell(f, q))(w2)
  {
    var g := Cell(f, q);
    forall w1, w2, c | 0 <= w1 < w2 < f.width && c in GridRow(0, f.depth, g)(w1)
      ensures c !in GridRow(0, f.depth, g)(w2)
    {
      SpanMember(0, f.depth, GridCell(g, w1), c);
      SpanMember(0, f.depth, GridCell(g, w2), c);
    }
  }
}
