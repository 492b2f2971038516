// A straight run of blocks along the length axis (scripts/prefabs/Wall.ts).
module Walls {
  import opened Errors
  import opened Geometry
  import opened Blocks
  import opened Puts
  import opened Spans
  import opened PrefabBase

  datatype WallParams = WallParams(orientation: Orientation, material: Material, length: int)

  /** A constructed wall: the constructor refuses lengths below 1. */
  type Wall = w: WallParams | w.length >= 1 witness WallParams(ZeroOrientation, Air, 1)

  function New(orientation: Orientation, material: Material, length: int): (r: Result<Wall>)
    ensures r.Success? <==> length >= 1
    ensures r.Success? ==> r.value == WallParams(orientation, material, length)
    ensures r.Failure? ==> r.error == WallTooShort
  {
    if length < 1 then Failure(WallTooShort) else Success(WallParams(orientation, material, length))
  }

  /** The put for local offset i. */
  function Cell(w: Wall, q: Quarter): int -> seq<Put>
  {
    i => [Put(w.orientation, Forward(q).Scale(i), w.material)]
  }

  /** Offsets 1 through length, in order. */
  function Calls(w: Wall, q: Quarter): seq<Put>
  {
    Span(1, w.length + 1, Cell(w, q))
  }

  function DrawSpec(w: Wall): Drawn
  {
    match QuarterOf(w.orientation.rotation)
    case None => Drawn([], Some(InvalidRotation(w.orientation.rotation)))
    case Some(q) => Drawn(Calls(w, q), None)
  }

  /** `draw(put)`: one put per block, at offsets 1..length; an invalid
      rotation throws at the first offset, before any put. */
  method Draw(w: Wall) returns (d: Drawn)
    ensures d == DrawSpec(w)
  {
    var calls: seq<Put> := [];
    ghost var oq := QuarterOf(w.orientation.rotation);
    for i := 0 to w.length
      invariant oq.None? ==> i == 0 && calls == []
      invariant oq.Some? ==> calls == Span(1, i + 1, Cell(w, oq.value))
    {
      var p := OffsetPoint(w.orientation.rotation, i + 1);
      if p.Failure? {
        return Drawn(calls, Some(p.error));
      }
      calls := calls + [Put(w.orientation, p.value, w.material)];
    }
    return Drawn(calls, None);
  }

  /** The child anchor: the orientation shifted `length` blocks along the
      length axis, same rotation. */
  function ChildOrientation(w: Wall): (r: Result<Orientation>)
    ensures r.Success? <==> ValidRotation(w.orientation.rotation)
    ensures r.Success? ==> r.value.rotation == w.orientation.rotation
    ensures r.Success? ==> r.value.point == w.orientation.point.Plus(Forward(QuarterOf(w.orientation.rotation).value).Scale(w.length))
  {
    match OffsetPoint(w.orientation.rotation, w.length)
    case Success(p) => Success(Orientation(LocalToWorld(w.orientation, p), w.orientation.rotation))
    case Failure(e) => Failure(e)
  }

  /** A wall issues `length` puts, all with its own orientation and
      material; the k-th is k + 1 blocks along the length axis, at local
      height 0; no two name the same point. */
  lemma CallsShape(w: Wall, q: Quarter)
    ensures |Calls(w, q)| == w.length
    ensures forall k :: 0 <= k < w.length ==>
      Calls(w, q)[k] == Put(w.orientation, Forward(q).Scale(k + 1), w.material)
    ensures Distinct(Calls(w, q))
  {
    SpanLength(1, w.length + 1, Cell(w, q), 1);
    forall k | 0 <= k < w.length
      ensures Calls(w, q)[k] == Put(w.orientation, Forward(q).Scale(k + 1), w.material)
    {
      SpanSingleAt(1, w.length + 1, Cell(w, q), k);
    }
    SpanSingleDistinct(1, w.length + 1, Cell(w, q));
  }

  /** Written through the buffer's `putOffset` at rotation 0, a wall fills
      the `length` cells east of its anchor. */
  lemma WorldCellsAtZero(w: Wall)
    requires w.orientation.rotation == 0
    ensures |Calls(w, Q0)| == w.length
    ensures forall k :: 0 <= k < w.length ==>
      Calls(w, Q0)[k].local.Plus(Calls(w, Q0)[k].orientation.point) == w.orientation.point.Plus(Point(k + 1, 0, 0))
  {
    CallsShape(w, Q0);
  }
}
