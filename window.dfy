// A width-by-height pane in the local x/y plane (scripts/prefabs/Window.ts).
module Windows {
  import opened Errors
  import opened Geometry
  import opened Blocks
  import opened Puts
  import opened Spans
  import opened PrefabBase

  datatype Size = Size(width: int, height: int)

  /** The optional construction settings (scripts/prefabs/WindowOptions.ts). */
  datatype WindowOptions = WindowOptions(size: Option<Size>, blockType: Option<Material>)

  const NoOptions := WindowOptions(None, None)
  const DefaultSize := Size(2, 2)
  const DefaultBlockType := GlassPane

  datatype WindowParams = WindowParams(orientation: Orientation, size: Size, blockType: Material)

  /** A constructed window: both sides at least 1 once defaults apply. */
  type Window = w: WindowParams | w.size.width >= 1 && w.size.height >= 1
    witness WindowParams(ZeroOrientation, Size(1, 1), GlassPane)

  /** The constructor: 2 by 2 GlassPane unless overridden; the width is
      checked before the height. */
  function New(orientation: Orientation, options: WindowOptions): (r: Result<Window>)
    ensures var size := options.size.GetOr(DefaultSize);
      && (r.Success? <==> size.width >= 1 && size.height >= 1)
      && (size.width < 1 ==> r == Failure(WindowWidthTooSmall))
      && (size.width >= 1 && size.height < 1 ==> r == Failure(WindowHeightTooSmall))
    ensures r.Success? ==> r.value.orientation == orientation
    ensures r.Success? && options.size.None? ==> r.value.size == Size(2, 2)
    ensures r.Success? && options.blockType.None? ==> r.value.blockType == GlassPane
    ensures r.Success? && options.blockType.Some? ==> r.value.blockType == options.blockType.value
  {
    var size := options.size.GetOr(DefaultSize);
    var blockType := options.blockType.GetOr(DefaultBlockType);
    if size.width < 1 then Failure(WindowWidthTooSmall)
    else if size.height < 1 then Failure(WindowHeightTooSmall)
    else Success(WindowParams(orientation, size, blockType))
  }

  function PointCell(): (int, int) -> seq<Point>
  {
    (x, y) => [Point(x, y, 0)]
  }

  /** The pane's cells, x outer and y inner. */
  function Occupied(size: Size): seq<Point>
  {
    Grid(0, size.width, 0, size.height, PointCell())
  }

  /** `getOccupiedPoints()`. */
  method OccupiedPoints(w: Window) returns (points: seq<Point>)
    ensures points == Occupied(w.size)
  {
    points := [];
    for x := 0 to w.size.width
      invariant points == Span(0, x, GridRow(0, w.size.height, PointCell()))
    {
      for y := 0 to w.size.height
        invariant points == Span(0, x, GridRow(0, w.size.height, PointCell()))
                            + Span(0, y, GridCell(PointCell(), x))
      {
        SpanSnoc(Span(0, x, GridRow(0, w.size.height, PointCell())), 0, y, GridCell(PointCell(), x));
        points := points + [Point(x, y, 0)];
      }
    }
  }

  /** The pane holds width * height points, and the one at index
      x * height + y is (x, y, 0): x is the outer loop. */
  lemma OccupiedOrder(s: Size)
    requires s.width >= 0 && s.height >= 0
    ensures |Occupied(s)| == s.width * s.height
    ensures forall x, y :: 0 <= x < s.width && 0 <= y < s.height ==>
      x * s.height + y < |Occupied(s)| && Occupied(s)[x * s.height + y] == Point(x, y, 0)
  {
    GridLength(0, s.width, 0, s.height, PointCell());
    OccupiedIndex(s);
  }

  lemma OccupiedIndex(s: Size)
    ensures forall x, y :: 0 <= x < s.width && 0 <= y < s.height ==>
      x * s.height + y < |Occupied(s)| && Occupied(s)[x * s.height + y] == Point(x, y, 0)
  {
    var pts := Occupied(s);
    forall x, y | 0 <= x < s.width && 0 <= y < s.height
      ensures x * s.height + y < |pts| && pts[x * s.height + y] == Point(x, y, 0)
    {
      RowAt(s, x, y);
    }
  }

  /** The pane is exactly the points (x, y, 0) with 0 <= x < width and
      0 <= y < height. */
  lemma OccupiedMembers(s: Size, p: Point)
    ensures p in Occupied(s) <==> 0 <= p.x < s.width && 0 <= p.y < s.height && p.z == 0
  {
    var g := PointCell();
    GridMember(0, s.width, 0, s.height, g, p);
    if 0 <= p.x < s.width && 0 <= p.y < s.height && p.z == 0 {
      assert p in g(p.x, p.y);
    }
  }

  /** No point of the pane is listed twice. */
  lemma OccupiedDistinct(s: Size)
    ensures Distinct(Occupied(s))
  {
    var g := PointCell();
    forall x | 0 <= x < s.width ensures Distinct(GridRow(0, s.height, g)(x)) {
      SpanSingleDistinct(0, s.height, GridCell(g, x));
    }
    forall x1, x2, p | 0 <= x1 < x2 < s.width && p in GridRow(0, s.height, g)(x1)
      ensures p !in GridRow(0, s.height, g)(x2)
    {
      SpanMember(0, s.height, GridCell(g, x1), p);
      SpanMember(0, s.height, GridCell(g, x2), p);
    }
    SpanDistinct(0, s.width, GridRow(0, s.height, g));
  }

  lemma RowAt(s: Size, x: int, y: int)
    requires 0 <= x < s.width && 0 <= y < s.height
    ensures x * s.height + y < |Occupied(s)| && Occupied(s)[x * s.height + y] == Point(x, y, 0)
  {
    var g := PointCell();
    var rows := GridRow(0, s.height, g);
    forall r | 0 <= r < s.width ensures |rows(r)| == s.height {
      SpanLength(0, s.height, GridCell(g, r), 1);
    }
    SpanLength(0, x, rows, s.height);
    SpanSplit(0, x, s.width, rows);
    SpanSplit(x, x + 1, s.width, rows);
    SpanSingleAt(0, s.height, GridCell(g, x), y);
    GridLength(0, s.width, 0, s.height, g);
    assert x * s.height + y < s.width * s.height by {
      assert (x + 1) * s.height <= s.width * s.height;
    }
  }

  /** One put of the window's block type per occupied point. */
  function PutsAt(o: Orientation, points: seq<Point>, t: Material): (r: seq<Put>)
    ensures |r| == |points|
    ensures forall k :: 0 <= k < |r| ==> r[k] == Put(o, points[k], t)
  {
    seq(|points|, k requires 0 <= k < |points| => Put(o, points[k], t))
  }

  function Calls(w: Window): seq<Put>
  {
    PutsAt(w.orientation, Occupied(w.size), w.blockType)
  }

  /** `checkOverlap(put)`: puts every point; reports true if a put threw. */
  method CheckOverlap(w: Window, sink: Sink) returns (occupied: bool, t: Trace)
    ensures t == Deliver(Calls(w), sink)
    ensures occupied == t.error.Some?
  {
    var points := OccupiedPoints(w);
    t := Issue(PutsAt(w.orientation, points, w.blockType), sink);
    occupied := t.error.Some?;
  }

  /** `draw(put)`: a check pass that puts every point and turns a throwing
      put into "Cannot place window: space is occupied"; then, only if no
      put threw, a draw pass that puts every point again. */
  function DrawSpec(w: Window, sink: Sink): Trace
  {
    var check := Deliver(Calls(w), sink);
    if check.error.Some? then Trace(check.puts, Some(SpaceOccupied))
    else Then(check, Deliver(Calls(w), sink))
  }

  method Draw(w: Window, sink: Sink) returns (t: Trace)
    ensures t == DrawSpec(w, sink)
  {
    var occupied, check := CheckOverlap(w, sink);
    if occupied {
      return Trace(check.puts, Some(SpaceOccupied));
    }
    var points := OccupiedPoints(w);
    var second := Issue(PutsAt(w.orientation, points, w.blockType), sink);
    t := Then(check, second);
  }

  /** With a put that never throws, every occupied point is put twice, check
      pass first, all with the window's orientation and block type. */
  lemma DrawAccepted(w: Window, sink: Sink)
    requires forall c :: sink(c).None?
    ensures DrawSpec(w, sink) == Trace(Calls(w) + Calls(w), None)
    ensures |Calls(w)| == w.size.width * w.size.height
    ensures forall c :: c in Calls(w) ==> c.orientation == w.orientation && c.material == w.blockType
  {
    DeliverFacts(Calls(w), sink);
    OccupiedOrder(w.size);
  }

  /** When a put throws in the check pass, the draw throws SpaceOccupied and
      the only puts made are a prefix of the check pass. */
  lemma DrawRefused(w: Window, sink: Sink)
    requires exists c :: c in Calls(w) && sink(c).Some?
    ensures DrawSpec(w, sink).error == Some(SpaceOccupied)
    ensures |DrawSpec(w, sink).puts| <= |Calls(w)|
    ensures DrawSpec(w, sink).puts == Calls(w)[..|DrawSpec(w, sink).puts|]
  {
    DeliverFacts(Calls(w), sink);
  }

  /** The child anchor is `width` blocks along the length axis, same
      rotation. */
  function ChildOrientation(w: Window): (r: Result<Orientation>)
    ensures r.Success? <==> ValidRotation(w.orientation.rotation)
    ensures r.Success? ==> r.value == Orientation(
      w.orientation.point.Plus(Forward(QuarterOf(w.orientation.rotation).value).Scale(w.size.width)),
      w.orientation.rotation)
  {
    match OffsetPoint(w.orientation.rotation, w.size.width)
    case Success(p) => Success(Orientation(LocalToWorld(w.orientation, p), w.orientation.rotation))
    case Failure(e) => Failure(e)
  }
}
