// A roof over a width-by-depth footprint in one of four styles
// (scripts/prefabs/Roof.ts).
module Roofs {
  import opened Errors
  import opened JsMath
  import opened Geometry
  import opened Blocks
  import opened Puts
  import opened Spans
  import opened PrefabBase
  import Floors

  /** The style is kept as the text it was given: configuration files can
      carry any string, and only drawing rejects an unknown one. */
  datatype RoofParams = RoofParams(orientation: Orientation, material: Material, width: int, depth: int, style: string)

  /** A constructed roof: width and depth at least 1; the style is not
      checked. */
  type Roof = r: RoofParams | r.width >= 1 && r.depth >= 1
    witness RoofParams(ZeroOrientation, Air, 1, 1, "flat")

  predicate KnownStyle(style: string)
  {
    style == "flat" || style == "gabled" || style == "hipped" || style == "pyramidal"
  }

  /** The constructor: the style defaults to "flat"; the width is checked
      before the depth. */
  function New(orientation: Orientation, material: Material, width: int, depth: int, style: Option<string>): (r: Result<Roof>)
    ensures r.Success? <==> width >= 1 && depth >= 1
    ensures width < 1 ==> r == Failure(RoofWidthTooSmall)
    ensures width >= 1 && depth < 1 ==> r == Failure(RoofDepthTooSmall)
    ensures r.Success? ==> r.value == RoofParams(orientation, material, width, depth, style.GetOr("flat"))
  {
    if width < 1 then Failure(RoofWidthTooSmall)
    else if depth < 1 then Failure(RoofDepthTooSmall)
    else Success(RoofParams(orientation, material, width, depth, style.GetOr("flat")))
  }

  /** The floor's grid frame, raised by h. */
  function RoofPoint(q: Quarter, w: int, d: int, h: int): Point
  {
    Floors.FloorPoint(q, w, d).Plus(Up.Scale(h))
  }

  /** `getRoofPoint(w, d, h)`: the floor's rotation table with the height
      in y. */
  function GetRoofPoint(rotation: int, w: int, d: int, h: int): (r: Result<Point>)
    ensures !ValidRotation(rotation) ==> r == Failure(InvalidRotation(rotation))
    ensures ValidRotation(rotation) ==> r == Success(RoofPoint(QuarterOf(rotation).value, w, d, h))
    ensures ValidRotation(rotation) ==> r.value.y == h && r.value.(y := 0) == Floors.GetFloorPoint(rotation, w, d).value
  {
    match rotation
    case 0 => Success(Point(w, h, d))
    case 90 => Success(Point(-d, h, w))
    case 180 => Success(Point(-w, h, -d))
    case 270 => Success(Point(d, h, -w))
    case _ => Failure(InvalidRotation(rotation))
  }

  /** What a style's draw returns once the rotation has been looked at. */
  function ByRotation(r: Roof, calls: Quarter -> seq<Put>): Drawn
  {
    match QuarterOf(r.orientation.rotation)
    case None => Drawn([], Some(InvalidRotation(r.orientation.rotation)))
    case Some(q) => Drawn(calls(q), None)
  }

  // ---- flat -------------------------------------------------------------

  function FlatCell(r: Roof, q: Quarter): (int, int) -> seq<Put>
  {
    (w, d) => [Put(r.orientation, RoofPoint(q, w, d, 0), r.material)]
  }

  function FlatCalls(r: Roof, q: Quarter): seq<Put>
  {
    Grid(0, r.width, 0, r.depth, FlatCell(r, q))
  }

  method DrawFlat(r: Roof) returns (res: Drawn)
    ensures res == ByRotation(r, q => FlatCalls(r, q))
  {
    var calls: seq<Put> := [];
    for w := 0 to r.width
      invariant QuarterOf(r.orientation.rotation).None? ==> w == 0 && calls == []
      invariant QuarterOf(r.orientation.rotation).Some? ==>
        calls == Span(0, w, GridRow(0, r.depth, FlatCell(r, QuarterOf(r.orientation.rotation).value)))
    {
      var row, error := DrawFlatRow(r, w);
      if error.Some? {
        return Drawn(calls, error);
      }
      SpanNext(0, w, GridRow(0, r.depth, FlatCell(r, QuarterOf(r.orientation.rotation).value)));
      calls := calls + row;
    }
    return Drawn(calls, None);
  }

  /** The inner loop of `drawFlat`: row w, or the rotation's exception at
      its first cell. */
  method DrawFlatRow(r: Roof, w: int) returns (row: seq<Put>, error: Option<Error>)
    ensures QuarterOf(r.orientation.rotation).None? ==> row == [] && error == Some(InvalidRotation(r.orientation.rotation))
    ensures QuarterOf(r.orientation.rotation).Some? ==>
      error.None? && row == Span(0, r.depth, GridCell(FlatCell(r, QuarterOf(r.orientation.rotation).value), w))
  {
    row := [];
    for d := 0 to r.depth
      invariant QuarterOf(r.orientation.rotation).None? ==> d == 0 && row == []
      invariant QuarterOf(r.orientation.rotation).Some? ==>
        row == Span(0, d, GridCell(FlatCell(r, QuarterOf(r.orientation.rotation).value), w))
    {
      var p := GetRoofPoint(r.orientation.rotation, w, d, 0);
      if p.Failure? {
        return row, Some(p.error);
      }
      SpanNext(0, d, GridCell(FlatCell(r, QuarterOf(r.orientation.rotation).value), w));
      row := row + [Put(r.orientation, p.value, r.material)];
    }
    error := None;
  }

  /** A flat roof is a floor: width * depth puts, all at local height 0. */
  lemma FlatIsFloor(r: Roof, q: Quarter)
    ensures |FlatCalls(r, q)| == r.width * r.depth
    ensures forall c :: c in FlatCalls(r, q) ==> c.local.y == 0
  {
    var g := FlatCell(r, q);
    GridLength(0, r.width, 0, r.depth, g);
    forall c | c in FlatCalls(r, q) ensures c.local.y == 0 {
      GridMember(0, r.width, 0, r.depth, g, c);
    }
  }

  // ---- gabled -----------------------------------------------------------

  /** Row d of a gabled roof rises to the ridge at depth / 2. */
  function GableHeight(depth: int, d: int): int
  {
    depth / 2 - Abs(d - depth / 2)
  }

  function GableCell(r: Roof, q: Quarter): (int, int) -> seq<Put>
  {
    (w, d) => var h := GableHeight(r.depth, d);
      if h >= 0 then [Put(r.orientation, RoofPoint(q, w, d, h), r.material)] else []
  }

  function GabledCalls(r: Roof, q: Quarter): seq<Put>
  {
    Grid(0, r.width, 0, r.depth, GableCell(r, q))
  }

  method DrawGabled(r: Roof) returns (res: Drawn)
    ensures res == ByRotation(r, q => GabledCalls(r, q))
  {
    var calls: seq<Put> := [];
    ghost var oq := QuarterOf(r.orientation.rotation);
    var halfDepth := r.depth / 2;
    for w := 0 to r.width
      invariant oq.None? ==> w == 0 && calls == []
      invariant oq.Some? ==> calls == Span(0, w, GridRow(0, r.depth, GableCell(r, oq.value)))
    {
      for d := 0 to r.depth
        invariant oq.None? ==> w == 0 && d == 0 && calls == []
        invariant oq.Some? ==> calls == Span(0, w, GridRow(0, r.depth, GableCell(r, oq.value)))
                                        + Span(0, d, GridCell(GableCell(r, oq.value), w))
      {
        var height := halfDepth - Abs(d - halfDepth);
        assert height == GableHeight(r.depth, d);
        if oq.Some? {
          SpanSnoc(Span(0, w, GridRow(0, r.depth, GableCell(r, oq.value))), 0, d, GridCell(GableCell(r, oq.value), w));
        }
        if height >= 0 {
          var p := GetRoofPoint(r.orientation.rotation, w, d, height);
          if p.Failure? {
            return Drawn(calls, Some(p.error));
          }
          assert GableCell(r, oq.value)(w, d) == [Put(r.orientation, p.value, r.material)];
          calls := calls + [Put(r.orientation, p.value, r.material)];
        }
      }
    }
    return Drawn(calls, None);
  }

  /** Every row of the footprint gets a height between 0 and depth / 2, the
      top reached exactly on the ridge row, so the `height >= 0` test never
      drops a cell. */
  lemma GableHeightRange(depth: int, d: int)
    requires 0 <= d < depth
    ensures 0 <= GableHeight(depth, d) <= depth / 2
    ensures GableHeight(depth, d) == depth / 2 <==> d == depth / 2
  {
  }

  /** Neighbouring rows differ in height by exactly one. */
  lemma GableSlope(depth: int, d: int)
    requires 0 <= d && d + 1 < depth
    ensures Abs(GableHeight(depth, d + 1) - GableHeight(depth, d)) == 1
  {
  }

  /** A gabled roof puts exactly one block per footprint cell. */
  lemma GabledCover(r: Roof, q: Quarter)
    ensures |GabledCalls(r, q)| == r.width * r.depth
    ensures forall w, d :: 0 <= w < r.width && 0 <= d < r.depth ==>
      Put(r.orientation, RoofPoint(q, w, d, GableHeight(r.depth, d)), r.material) in GabledCalls(r, q)
  {
    var g := GableCell(r, q);
    forall w, d | 0 <= w < r.width && 0 <= d < r.depth
      ensures g(w, d) == [Put(r.orientation, RoofPoint(q, w, d, GableHeight(r.depth, d)), r.material)]
    {
      GableHeightRange(r.depth, d);
    }
    GridLength(0, r.width, 0, r.depth, g);
    forall w, d | 0 <= w < r.width && 0 <= d < r.depth
      ensures Put(r.orientation, RoofPoint(q, w, d, GableHeight(r.depth, d)), r.material) in GabledCalls(r, q)
    {
      GridMember(0, r.width, 0, r.depth, g, Put(r.orientation, RoofPoint(q, w, d, GableHeight(r.depth, d)), r.material));
    }
  }

  // ---- hipped -----------------------------------------------------------

  /** The number of levels a hipped roof draws before its inset rectangle
      becomes empty. */
  function HipLevels(width: int, depth: int): int
  {
    Min((width - 1) / 2, (depth - 1) / 2) + 1
  }

  function HipCell(r: Roof, q: Quarter, y: int): (int, int) -> seq<Put>
  {
    (w, d) => [Put(r.orientation, RoofPoint(q, w, d, y), r.material)]
  }

  /** Level y fills the rectangle [y, width-1-y] x [y, depth-1-y] at
      height y. */
  function HipLevel(r: Roof, q: Quarter): int -> seq<Put>
  {
    y => Grid(y, r.width - y, y, r.depth - y, HipCell(r, q, y))
  }

  function HippedCalls(r: Roof, q: Quarter): seq<Put>
  {
    Span(0, HipLevels(r.width, r.depth), HipLevel(r, q))
  }

  method DrawHipped(r: Roof) returns (res: Drawn)
    ensures res == ByRotation(r, q => HippedCalls(r, q))
  {
    var calls: seq<Put> := [];
    ghost var oq := QuarterOf(r.orientation.rotation);
    var maxHeight := Min(r.width / 2, r.depth / 2);
    var y := 0;
    while y <= maxHeight
      invariant 0 <= y <= HipLevels(r.width, r.depth)
      invariant oq.None? ==> y == 0 && calls == []
      invariant oq.Some? ==> calls == Span(0, y, HipLevel(r, oq.value))
    {
      if y > r.width - y - 1 || y > r.depth - y - 1 {
        break;
      }
      var level := DrawHipLevel(r, y);
      calls := calls + level.calls;
      if level.error.Some? {
        return Drawn(calls, level.error);
      }
      y := y + 1;
    }
    return Drawn(calls, None);
  }

  /** One level of the hipped loop: the rectangle inset by y, at height
      y. */
  method DrawHipLevel(r: Roof, y: int) returns (res: Drawn)
    requires 0 <= y <= r.width - y - 1 && y <= r.depth - y - 1
    ensures QuarterOf(r.orientation.rotation).None? ==> res == Drawn([], Some(InvalidRotation(r.orientation.rotation)))
    ensures QuarterOf(r.orientation.rotation).Some? ==> res == Drawn(HipLevel(r, QuarterOf(r.orientation.rotation).value)(y), None)
  {
    var calls: seq<Put> := [];
    ghost var oq := QuarterOf(r.orientation.rotation);
    ghost var rows := GridRow(y, r.depth - y, HipCell(r, if oq.Some? then oq.value else Q0, y));
    var startW, endW := y, r.width - y - 1;
    for w := startW to endW + 1
      invariant oq.None? ==> w == startW && calls == []
      invariant oq.Some? ==> calls == Span(y, w, rows)
    {
      var row := DrawHipRow(r, y, w);
      calls := calls + row.calls;
      if row.error.Some? {
        return Drawn(calls, row.error);
      }
    }
    return Drawn(calls, None);
  }

  /** The inner loop of one hipped level: column w of the inset
      rectangle. */
  method DrawHipRow(r: Roof, y: int, w: int) returns (res: Drawn)
    requires 0 <= y <= r.depth - y - 1
    ensures QuarterOf(r.orientation.rotation).None? ==> res == Drawn([], Some(InvalidRotation(r.orientation.rotation)))
    ensures QuarterOf(r.orientation.rotation).Some? ==> res == Drawn(GridRow(y, r.depth - y, HipCell(r, QuarterOf(r.orientation.rotation).value, y))(w), None)
  {
    var calls: seq<Put> := [];
    ghost var oq := QuarterOf(r.orientation.rotation);
    ghost var cell := GridCell(HipCell(r, if oq.Some? then oq.value else Q0, y), w);
    var startD, endD := y, r.depth - y - 1;
    for d := startD to endD + 1
      invariant oq.None? ==> d == startD && calls == []
      invariant oq.Some? ==> calls == Span(y, d, cell)
    {
      var p := GetRoofPoint(r.orientation.rotation, w, d, y);
      if p.Failure? {
        return Drawn(calls, Some(p.error));
      }
      calls := calls + [Put(r.orientation, p.value, r.material)];
    }
    return Drawn(calls, None);
  }

  /** The loop bound min(width / 2, depth / 2) is never what stops a hipped
      roof early: every level below HipLevels has a non-empty rectangle,
      the level HipLevels has an empty one, and it is within the bound. */
  lemma HipLevelsStop(width: int, depth: int, y: int)
    requires width >= 1 && depth >= 1 && y >= 0
    ensures y < HipLevels(width, depth) <==> y <= width - 1 - y && y <= depth - 1 - y
    ensures 1 <= HipLevels(width, depth) <= Min(width / 2, depth / 2) + 1
  {
  }

  // ---- pyramidal --------------------------------------------------------

  /** How far cell (w, d) is from the footprint's nearest edge. */
  function EdgeDistance(width: int, depth: int, w: int, d: int): int
  {
    Min(Min(w, width - 1 - w), Min(d, depth - 1 - d))
  }

  function PyramidCell(r: Roof, q: Quarter, y: int): (int, int) -> seq<Put>
  {
    (w, d) => if EdgeDistance(r.width, r.depth, w, d) >= y
      then [Put(r.orientation, RoofPoint(q, w, d, y), r.material)] else []
  }

  function PyramidLevel(r: Roof, q: Quarter): int -> seq<Put>
  {
    y => Grid(0, r.width, 0, r.depth, PyramidCell(r, q, y))
  }

  function PyramidalCalls(r: Roof, q: Quarter): seq<Put>
  {
    Span(0, Max(r.width, r.depth) / 2 + 1, PyramidLevel(r, q))
  }

  method DrawPyramidal(r: Roof) returns (res: Drawn)
    ensures res == ByRotation(r, q => PyramidalCalls(r, q))
  {
    var calls: seq<Put> := [];
    ghost var oq := QuarterOf(r.orientation.rotation);
    var maxHeight := Max(r.width, r.depth) / 2;
    for y := 0 to maxHeight + 1
      invariant oq.None? ==> y == 0 && calls == []
      invariant oq.Some? ==> calls == Span(0, y, PyramidLevel(r, oq.value))
    {
      var level := DrawPyramidLevel(r, y);
      calls := calls + level.calls;
      if level.error.Some? {
        return Drawn(calls, level.error);
      }
    }
    return Drawn(calls, None);
  }

  /** One level of the pyramidal loop: every footprint cell at least y away
      from the edge, at height y. */
  method DrawPyramidLevel(r: Roof, y: int) returns (res: Drawn)
    requires 0 <= y
    ensures QuarterOf(r.orientation.rotation).None? && y == 0 ==> res == Drawn([], Some(InvalidRotation(r.orientation.rotation)))
    ensures QuarterOf(r.orientation.rotation).Some? ==> res == Drawn(PyramidLevel(r, QuarterOf(r.orientation.rotation).value)(y), None)
  {
    var calls: seq<Put> := [];
    for w := 0 to r.width
      invariant QuarterOf(r.orientation.rotation).None? && y == 0 ==> w == 0 && calls == []
      invariant QuarterOf(r.orientation.rotation).Some? ==>
        calls == Span(0, w, GridRow(0, r.depth, PyramidCell(r, QuarterOf(r.orientation.rotation).value, y)))
    {
      var row, error := DrawPyramidRow(r, y, w);
      if error.Some? {
        return Drawn(calls, error);
      }
      if QuarterOf(r.orientation.rotation).Some? {
        SpanNext(0, w, GridRow(0, r.depth, PyramidCell(r, QuarterOf(r.orientation.rotation).value, y)));
      }
      calls := calls + row;
    }
    return Drawn(calls, None);
  }

  /** The inner loop of a pyramidal level: the cells of row w at least y
      from the edge, or the rotation's exception at the first of them. */
  method DrawPyramidRow(r: Roof, y: int, w: int) returns (row: seq<Put>, error: Option<Error>)
    requires 0 <= y && 0 <= w < r.width
    ensures QuarterOf(r.orientation.rotation).None? && y == 0 ==>
      row == [] && error == Some(InvalidRotation(r.orientation.rotation))
    ensures QuarterOf(r.orientation.rotation).Some? ==>
      error.None? && row == Span(0, r.depth, GridCell(PyramidCell(r, QuarterOf(r.orientation.rotation).value, y), w))
  {
    row := [];
    for d := 0 to r.depth
      invariant QuarterOf(r.orientation.rotation).None? && y == 0 ==> d == 0 && row == []
      invariant QuarterOf(r.orientation.rotation).Some? ==>
        row == Span(0, d, GridCell(PyramidCell(r, QuarterOf(r.orientation.rotation).value, y), w))
    {
      var minDist := Min(Min(w, r.width - 1 - w), Min(d, r.depth - 1 - d));
      assert minDist == EdgeDistance(r.width, r.depth, w, d);
      if QuarterOf(r.orientation.rotation).Some? {
        SpanNext(0, d, GridCell(PyramidCell(r, QuarterOf(r.orientation.rotation).value, y), w));
      }
      if minDist >= y {
        var p := GetRoofPoint(r.orientation.rotation, w, d, y);
        if p.Failure? {
          return row, Some(p.error);
        }
        row := row + [Put(r.orientation, p.value, r.material)];
      }
    }
    error := None;
  }

  /** Each pyramidal level keeps exactly the hipped level's rectangle, in
      the same order, and the levels above the hipped roof's top are empty:
      the two styles issue the very same puts. */
  lemma PyramidalIsHipped(r: Roof, q: Quarter)
    ensures PyramidalCalls(r, q) == HippedCalls(r, q)
  {
    var n := HipLevels(r.width, r.depth);
    var top := Max(r.width, r.depth) / 2 + 1;
    forall y | 0 <= y < n ensures PyramidLevel(r, q)(y) == HipLevel(r, q)(y) {
      PyramidLevelIsRectangle(r, q, y);
    }
    forall y | n <= y < top ensures PyramidLevel(r, q)(y) == [] {
      PyramidLevelAboveTop(r, q, y);
    }
    SpanSplit(0, n, top, PyramidLevel(r, q));
    SpanEmpty(n, top, PyramidLevel(r, q));
    SpanCongruent(0, n, PyramidLevel(r, q), HipLevel(r, q));
  }

  lemma PyramidLevelIsRectangle(r: Roof, q: Quarter, y: int)
    requires 0 <= y < HipLevels(r.width, r.depth)
    ensures PyramidLevel(r, q)(y) == HipLevel(r, q)(y)
  {
    HipLevelsInside(r.width, r.depth, y);
    PyramidGridIsRectangle(r, q, y);
  }

  /** A level below the hipped roof's height fits inside the footprint. */
  lemma HipLevelsInside(width: int, depth: int, y: int)
    requires 0 <= y < HipLevels(width, depth)
    ensures y <= width - 1 - y && y <= depth - 1 - y
  {
    assert y <= (width - 1) / 2 && y <= (depth - 1) / 2;
  }

  lemma PyramidGridIsRectangle(r: Roof, q: Quarter, y: int)
    requires 0 <= y <= r.width - 1 - y && y <= r.depth - 1 - y
    ensures Span(0, r.width, GridRow(0, r.depth, PyramidCell(r, q, y)))
         == Span(y, r.width - y, GridRow(y, r.depth - y, HipCell(r, q, y)))
  {
    PyramidRowsTrim(r, q, y);
    SpanTrim(0, y, r.width - y, r.width, GridRow(0, r.depth, PyramidCell(r, q, y)), GridRow(y, r.depth - y, HipCell(r, q, y)));
  }

  /** The rows of a pyramidal level outside [y, width - y) are empty and
      those inside it are the hipped level's rows. */
  lemma PyramidRowsTrim(r: Roof, q: Quarter, y: int)
    requires 0 <= y <= r.width - 1 - y && y <= r.depth - 1 - y
    ensures forall w :: 0 <= w < y ==> GridRow(0, r.depth, PyramidCell(r, q, y))(w) == []
    ensures forall w :: r.width - y <= w < r.width ==> GridRow(0, r.depth, PyramidCell(r, q, y))(w) == []
    ensures forall w :: y <= w < r.width - y ==>
      GridRow(0, r.depth, PyramidCell(r, q, y))(w) == GridRow(y, r.depth - y, HipCell(r, q, y))(w)
  {
    forall w | 0 <= w < y ensures GridRow(0, r.depth, PyramidCell(r, q, y))(w) == [] {
      PyramidRowOutside(r, q, y, w);
    }
    forall w | r.width - y <= w < r.width ensures GridRow(0, r.depth, PyramidCell(r, q, y))(w) == [] {
      PyramidRowOutside(r, q, y, w);
    }
    forall w | y <= w < r.width - y
      ensures GridRow(0, r.depth, PyramidCell(r, q, y))(w) == GridRow(y, r.depth - y, HipCell(r, q, y))(w)
    {
      PyramidRowInside(r, q, y, w);
    }
  }

  lemma PyramidRowOutside(r: Roof, q: Quarter, y: int, w: int)
    requires w < y || w > r.width - 1 - y
    ensures GridRow(0, r.depth, PyramidCell(r, q, y))(w) == []
  {
    SpanEmpty(0, r.depth, GridCell(PyramidCell(r, q, y), w));
  }

  lemma PyramidRowInside(r: Roof, q: Quarter, y: int, w: int)
    requires 0 <= y <= w <= r.width - 1 - y && y <= r.depth - 1 - y
    ensures GridRow(0, r.depth, PyramidCell(r, q, y))(w) == GridRow(y, r.depth - y, HipCell(r, q, y))(w)
  {
    SpanTrim(0, y, r.depth - y, r.depth, GridCell(PyramidCell(r, q, y), w), GridCell(HipCell(r, q, y), w));
  }

  lemma PyramidLevelAboveTop(r: Roof, q: Quarter, y: int)
    requires y >= HipLevels(r.width, r.depth)
    ensures PyramidLevel(r, q)(y) == []
  {
    var pc := PyramidCell(r, q, y);
    forall w | 0 <= w < r.width ensures GridRow(0, r.depth, pc)(w) == [] {
      SpanEmpty(0, r.depth, GridCell(pc, w));
    }
    SpanEmpty(0, r.width, GridRow(0, r.depth, pc));
  }

  // ---- dispatch and child anchor ----------------------------------------

  /** The puts of a known style. */
  function StyleCalls(r: Roof, q: Quarter): seq<Put>
    requires KnownStyle(r.style)
  {
    if r.style == "flat" then FlatCalls(r, q)
    else if r.style == "gabled" then GabledCalls(r, q)
    else if r.style == "hipped" then HippedCalls(r, q)
    else PyramidalCalls(r, q)
  }

  /** `draw(put)`: an unknown style throws at draw time, before the
      rotation is looked at. */
  function DrawSpec(r: Roof): Drawn
  {
    if !KnownStyle(r.style) then Drawn([], Some(UnknownRoofStyle(r.style)))
    else ByRotation(r, q => StyleCalls(r, q))
  }

  method Draw(r: Roof) returns (res: Drawn)
    ensures res == DrawSpec(r)
  {
    if r.style == "flat" {
      res := DrawFlat(r);
    } else if r.style == "gabled" {
      res := DrawGabled(r);
    } else if r.style == "hipped" {
      res := DrawHipped(r);
    } else if r.style == "pyramidal" {
      res := DrawPyramidal(r);
    } else {
      res := Drawn([], Some(UnknownRoofStyle(r.style)));
    }
  }

  /** `getMaxHeight()`: the height of the child anchor above the roof's
      base. */
  function MaxHeight(r: Roof): (h: int)
    ensures h >= 0
    ensures r.style == "gabled" ==> h == r.depth / 2
    ensures r.style == "hipped" || r.style == "pyramidal" ==> h == Min(r.width / 2, r.depth / 2)
    ensures !(r.style == "gabled" || r.style == "hipped" || r.style == "pyramidal") ==> h == 0
  {
    if r.style == "flat" then 0
    else if r.style == "gabled" then r.depth / 2
    else if r.style == "hipped" || r.style == "pyramidal" then Min(r.width / 2, r.depth / 2)
    else 0
  }

  /** A roof point's local height is the height it was asked for. */
  lemma RoofPointHeight(q: Quarter, w: int, d: int, h: int)
    ensures RoofPoint(q, w, d, h).y == h
  {
  }

  /** A flat roof's cell (w, d) puts one block at height 0. */
  lemma FlatCellHas(r: Roof, q: Quarter, w: int, d: int)
    ensures Put(r.orientation, RoofPoint(q, w, d, 0), r.material) in FlatCell(r, q)(w, d)
  {
  }

  /** Cell (w, d) of hipped level y puts one block at height y. */
  lemma HipCellIs(r: Roof, q: Quarter, y: int, w: int, d: int)
    ensures HipCell(r, q, y)(w, d) == [Put(r.orientation, RoofPoint(q, w, d, y), r.material)]
  {
  }

  lemma HipLevelIs(r: Roof, q: Quarter, y: int)
    ensures HipLevel(r, q)(y) == Grid(y, r.width - y, y, r.depth - y, HipCell(r, q, y))
  {
  }

  /** Every put of a flat roof is at height 0, and the corner cell is put. */
  lemma FlatHeights(r: Roof, q: Quarter) returns (top: Put)
    ensures top in FlatCalls(r, q) && top.local.y == 0
    ensures forall c :: c in FlatCalls(r, q) ==> c.local.y == 0
  {
    FlatIsFloor(r, q);
    top := FlatCorner(r, q);
  }

  lemma FlatCorner(r: Roof, q: Quarter) returns (top: Put)
    ensures top in FlatCalls(r, q) && top.local.y == 0
  {
    top := Put(r.orientation, RoofPoint(q, 0, 0, 0), r.material);
    FlatCellHas(r, q, 0, 0);
    GridHas(0, r.width, 0, r.depth, FlatCell(r, q), 0, 0, top);
    RoofPointHeight(q, 0, 0, 0);
  }

  /** Every put of a gabled roof is between 0 and depth / 2 high, and the
      ridge row reaches depth / 2. */
  lemma GabledHeights(r: Roof, q: Quarter) returns (top: Put)
    ensures top in GabledCalls(r, q) && top.local.y == r.depth / 2
    ensures forall c :: c in GabledCalls(r, q) ==> 0 <= c.local.y <= r.depth / 2
  {
    var g := GableCell(r, q);
    forall c | c in GabledCalls(r, q) ensures 0 <= c.local.y <= r.depth / 2 {
      GridMember(0, r.width, 0, r.depth, g, c);
      var w, d :| 0 <= w < r.width && 0 <= d < r.depth && c in g(w, d);
      GableHeightRange(r.depth, d);
      RoofPointHeight(q, w, d, GableHeight(r.depth, d));
    }
    GableHeightRange(r.depth, r.depth / 2);
    GabledCover(r, q);
    top := Put(r.orientation, RoofPoint(q, 0, r.depth / 2, GableHeight(r.depth, r.depth / 2)), r.material);
    RoofPointHeight(q, 0, r.depth / 2, GableHeight(r.depth, r.depth / 2));
  }

  /** A put of hipped level y is at height y. */
  lemma HipPutHeight(r: Roof, q: Quarter, y: int, c: Put)
    requires c in HipLevel(r, q)(y)
    ensures c.local.y == y
  {
    HipLevelIs(r, q, y);
    GridMember(y, r.width - y, y, r.depth - y, HipCell(r, q, y), c);
    var w, d :| y <= w < r.width - y && y <= d < r.depth - y && c in HipCell(r, q, y)(w, d);
    HipCellIs(r, q, y, w, d);
    RoofPointHeight(q, w, d, y);
  }

  /** Every put of a hipped roof is on a level below HipLevels, at that
      level's height, and the last level is put. */
  lemma HippedHeights(r: Roof, q: Quarter) returns (top: Put)
    ensures top in HippedCalls(r, q) && top.local.y == HipLevels(r.width, r.depth) - 1
    ensures forall c :: c in HippedCalls(r, q) ==> 0 <= c.local.y < HipLevels(r.width, r.depth)
  {
    var n := HipLevels(r.width, r.depth);
    forall c | c in HippedCalls(r, q) ensures 0 <= c.local.y < n {
      SpanMember(0, n, HipLevel(r, q), c);
      var y :| 0 <= y < n && c in HipLevel(r, q)(y);
      HipPutHeight(r, q, y, c);
    }
    top := HipTopPut(r, q);
  }

  /** The last level of a hipped roof puts its first cell. */
  lemma HipTopPut(r: Roof, q: Quarter) returns (top: Put)
    ensures top in HippedCalls(r, q) && top.local.y == HipLevels(r.width, r.depth) - 1
  {
    var n := HipLevels(r.width, r.depth);
    var y := n - 1;
    HipLevelsStop(r.width, r.depth, y);
    top := HipCorner(r, q, y);
    SpanMember(0, n, HipLevel(r, q), top);
  }

  /** Level y of a hipped roof with a non-empty rectangle puts its corner
      (y, y) at height y. */
  lemma HipCorner(r: Roof, q: Quarter, y: int) returns (top: Put)
    requires 0 <= y <= r.width - 1 - y && y <= r.depth - 1 - y
    ensures top in HipLevel(r, q)(y) && top.local.y == y
  {
    top := Put(r.orientation, RoofPoint(q, y, y, y), r.material);
    RoofPointHeight(q, y, y, y);
    HipCellIs(r, q, y, y, y);
    GridHas(y, r.width - y, y, r.depth - y, HipCell(r, q, y), y, y, top);
    HipLevelIs(r, q, y);
  }

  /** The last hipped level sits at MaxHeight when the shorter side is odd,
      and one below it when that side is even. */
  lemma HipTopAgainstMaxHeight(width: int, depth: int)
    requires width >= 1 && depth >= 1
    ensures HipLevels(width, depth) - 1 ==
      if Min(width, depth) % 2 == 1 then Min(width / 2, depth / 2) else Min(width / 2, depth / 2) - 1
  {
  }

  /** `getMaxHeight` against what `draw` puts: no block of the roof is
      higher than MaxHeight, and some block reaches the roof's top, which is
      MaxHeight itself for flat and gabled roofs and for hipped and
      pyramidal roofs whose shorter side is odd; a hipped or pyramidal roof
      whose shorter side is even stops one block below MaxHeight. */
  lemma MaxHeightIsTop(r: Roof, q: Quarter) returns (top: Put)
    requires KnownStyle(r.style)
    ensures top in StyleCalls(r, q)
    ensures forall c :: c in StyleCalls(r, q) ==> 0 <= c.local.y <= top.local.y
    ensures top.local.y <= MaxHeight(r)
    ensures top.local.y == MaxHeight(r) <==>
      !(r.style == "hipped" || r.style == "pyramidal") || Min(r.width, r.depth) % 2 == 1
    ensures top.local.y >= MaxHeight(r) - 1
  {
    if r.style == "flat" {
      top := FlatHeights(r, q);
    } else if r.style == "gabled" {
      top := GabledHeights(r, q);
    } else {
      PyramidalIsHipped(r, q);
      assert StyleCalls(r, q) == HippedCalls(r, q);
      top := HippedHeights(r, q);
      HipTopAgainstMaxHeight(r.width, r.depth);
    }
  }

  /** The child anchor: over the footprint's centre cell, at MaxHeight. */
  function ChildOrientation(r: Roof): (o: Result<Orientation>)
    ensures o.Success? <==> ValidRotation(r.orientation.rotation)
    ensures o.Success? ==> o.value == Orientation(
      r.orientation.point.Plus(RoofPoint(QuarterOf(r.orientation.rotation).value, r.width / 2, r.depth / 2, MaxHeight(r))),
      r.orientation.rotation)
  {
    match GetRoofPoint(r.orientation.rotation, r.width / 2, r.depth / 2, MaxHeight(r))
    case Success(p) => Success(Orientation(LocalToWorld(r.orientation, p), r.orientation.rotation))
    case Failure(e) => Failure(e)
  }
}
