// A staircase rising one block per step (scripts/prefabs/Stairs.ts).
module Staircases {
  import opened Errors
  import opened Geometry
  import opened Blocks
  import opened Puts
  import opened Spans
  import opened PrefabBase

  datatype StairsParams = StairsParams(orientation: Orientation, material: Material, steps: int, width: int)

  /** Constructed stairs: at least one step, at least one block wide. */
  type Stairs = s: StairsParams | s.steps >= 1 && s.width >= 1
    witness StairsParams(ZeroOrientation, Air, 1, 1)

  /** The constructor: the width defaults to 1; the step count is checked
      before the width. */
  function New(orientation: Orientation, material: Material, steps: int, width: Option<int>): (r: Result<Stairs>)
    ensures var wd := width.GetOr(1);
      && (r.Success? <==> steps >= 1 && wd >= 1)
      && (steps < 1 ==> r == Failure(StairsTooFewSteps))
      && (steps >= 1 && wd < 1 ==> r == Failure(StairsWidthTooSmall))
      && (r.Success? ==> r.value == StairsParams(orientation, material, steps, wd))
  {
    var wd := width.GetOr(1);
    if steps < 1 then Failure(StairsTooFewSteps)
    else if wd < 1 then Failure(StairsWidthTooSmall)
    else Success(StairsParams(orientation, material, steps, wd))
  }

  /** Steps run along the length axis, the width across it, and h is the
      height. */
  function StairPoint(q: Quarter, s: int, w: int, h: int): Point
  {
    Forward(q).Scale(s).Plus(Forward(q.Next()).Scale(w)).Plus(Up.Scale(h))
  }

  /** `getStairPoint(step, w, height)`: the source's rotation table. */
  function GetStairPoint(rotation: int, s: int, w: int, h: int): (r: Result<Point>)
    ensures !ValidRotation(rotation) ==> r == Failure(InvalidRotation(rotation))
    ensures ValidRotation(rotation) ==> r == Success(StairPoint(QuarterOf(rotation).value, s, w, h))
  {
    match rotation
    case 0 => Success(Point(s, h, w))
    case 90 => Success(Point(-w, h, s))
    case 180 => Success(Point(-s, h, -w))
    case 270 => Success(Point(w, h, -s))
    case _ => Failure(InvalidRotation(rotation))
  }

  /** Step s is put at height s. */
  function Cell(st: Stairs, q: Quarter): (int, int) -> seq<Put>
  {
    (s, w) => [Put(st.orientation, StairPoint(q, s, w, s), st.material)]
  }

  /** Steps outer, width inner. */
  function Calls(st: Stairs, q: Quarter): seq<Put>
  {
    Grid(0, st.steps, 0, st.width, Cell(st, q))
  }

  function DrawSpec(st: Stairs): Drawn
  {
    match QuarterOf(st.orientation.rotation)
    case None => Drawn([], Some(InvalidRotation(st.orientation.rotation)))
    case Some(q) => Drawn(Calls(st, q), None)
  }

  method Draw(st: Stairs) returns (r: Drawn)
    ensures r == DrawSpec(st)
  {
    var calls: seq<Put> := [];
    ghost var oq := QuarterOf(st.orientation.rotation);
    for step := 0 to st.steps
      invariant oq.None? ==> step == 0 && calls == []
      invariant oq.Some? ==> calls == Span(0, step, GridRow(0, st.width, Cell(st, oq.value)))
    {
      var height := step;
      for w := 0 to st.width
        invariant oq.None? ==> step == 0 && w == 0 && calls == []
        invariant oq.Some? ==> calls == Span(0, step, GridRow(0, st.width, Cell(st, oq.value)))
                                        + Span(0, w, GridCell(Cell(st, oq.value), step))
      {
        var p := GetStairPoint(st.orientation.rotation, step, w, height);
        if p.Failure? {
          return Drawn(calls, Some(p.error));
        }
        SpanSnoc(Span(0, step, GridRow(0, st.width, Cell(st, oq.value))), 0, w, GridCell(Cell(st, oq.value), step));
        calls := calls + [Put(st.orientation, p.value, st.material)];
      }
    }
    return Drawn(calls, None);
  }

  /** The child anchor is over the top step's first block. */
  function ChildOrientation(st: Stairs): (r: Result<Orientation>)
    ensures r.Success? <==> ValidRotation(st.orientation.rotation)
    ensures r.Success? ==> r.value == Orientation(
      st.orientation.point.Plus(StairPoint(QuarterOf(st.orientation.rotation).value, st.steps - 1, 0, st.steps - 1)),
      st.orientation.rotation)
  {
    match GetStairPoint(st.orientation.rotation, st.steps - 1, 0, st.steps - 1)
    case Success(p) => Success(Orientation(LocalToWorld(st.orientation, p), st.orientation.rotation))
    case Failure(e) => Failure(e)
  }

  /** Stairs issue steps * width puts; each is the block of some step s and
      column w, at height s, with the stairs' orientation and material. */
  lemma CallsCover(st: Stairs, q: Quarter)
    ensures |Calls(st, q)| == st.steps * st.width
    ensures forall c :: c in Calls(st, q) <==>
      exists s, w :: 0 <= s < st.steps && 0 <= w < st.width && c == Put(st.orientation, StairPoint(q, s, w, s), st.material)
    ensures forall c :: c in Calls(st, q) ==> 0 <= c.local.y < st.steps
  {
    var g := Cell(st, q);
    GridLength(0, st.steps, 0, st.width, g);
    forall c ensures c in Calls(st, q) <==> exists s, w :: 0 <= s < st.steps && 0 <= w < st.width && c in g(s, w) {
      GridMember(0, st.steps, 0, st.width, g, c);
    }
    assert forall s, w :: g(s, w) == [Put(st.orientation, StairPoint(q, s, w, s), st.material)];
  }

  /** No block of a staircase is put twice. */
  lemma CallsDistinct(st: Stairs, q: Quarter)
    ensures Distinct(Calls(st, q))
  {
    StepsDistinct(st, q);
    StepsDisjoint(st, q);
    SpanDistinct(0, st.steps, GridRow(0, st.width, Cell(st, q)));
  }

  /** Within one step no cell is put twice. */
  lemma StepsDistinct(st: Stairs, q: Quarter)
    ensures forall s :: 0 <= s < st.steps ==> Distinct(GridRow(0, st.width, Cell(st, q))(s))
  {
    forall s | 0 <= s < st.steps ensures Distinct(GridRow(0, st.width, Cell(st, q))(s)) {
      SpanSingleDistinct(0, st.width, GridCell(Cell(st, q), s));
    }
  }

  /** Two different steps share no put. */
  lemma StepsDisjoint(st: Stairs, q: Quarter)
    ensures forall s1, s2, c ::
      0 <= s1 < s2 < st.steps && c in GridRow(0, st.width, Cell(st, q))(s1) ==> c !in GridRow(0, st.width, Cell(st, q))(s2)
  {
    var g := Cell(st, q);
    forall s1, s2, c | 0 <= s1 < s2 < st.steps && c in GridRow(0, st.width, g)(s1)
      ensures c !in GridRow(0, st.width, g)(s2)
    {
      SpanMember(0, st.width, GridCell(g, s1), c);
      SpanMember(0, st.width, GridCell(g, s2), c);
    }
  }
}
