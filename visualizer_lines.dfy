// `drawLine` of the house visualizer
// (scripts/visualization/HouseVisualizer.ts): a three-axis stepping line.
// Each axis steps toward its end when its accumulated error reaches the
// number of steps already taken on it, scaled by the longest extent. The
// source compares with `>=`; `DrawLine` takes the comparison as a parameter,
// `AsWritten` being the source's and `Corrected` (`>`) the repaired one.
module VisualizerLines {
  import opened JsMath
  import opened Geometry
  import opened Blocks
  import opened Puts
  import opened Spans

  /** The two end points of a line, in the orientation's local frame. */
  datatype Segment = Segment(x1: int, y1: int, z1: int, x2: int, y2: int, z2: int) {
    function Dx(): nat { Abs(x2 - x1) }
    function Dy(): nat { Abs(y2 - y1) }
    function Dz(): nat { Abs(z2 - z1) }
    /** `Math.max(dx, dy, dz)`: the iterations after the first. */
    function Steps(): nat { Max(Max(Dx(), Dy()), Dz()) }
    function Start(): Point { Point(x1, y1, z1) }
    function End(): Point { Point(x2, y2, z2) }
  }

  /** `a < b ? 1 : -1`. */
  function Direction(a: int, b: int): (s: int)
    ensures s == 1 || s == -1
  {
    if a < b then 1 else -1
  }

  /** The test deciding whether an axis steps: `>=` in the source, `>` in
      the corrected loop. */
  datatype Comparison = AsWritten | Corrected

  predicate Moves(cmp: Comparison, e: int, bound: int)
  {
    match cmp
    case AsWritten => e >= bound
    case Corrected => e > bound
  }

  /** a * b as repeated addition, which keeps products out of the
      recursive definitions below. */
  function Times(a: nat, b: int): int
  {
    if a == 0 then 0 else Times(a - 1, b) + b
  }

  lemma {:induction false} TimesIsProduct(a: nat, b: int)
    ensures Times(a, b) == a * b
  {
    if a > 0 {
      TimesIsProduct(a - 1, b);
      assert a * b == (a - 1) * b + b;
    }
  }

  /** Times distributes over a difference of its second arguments. */
  lemma {:induction false} TimesDifference(a: nat, b1: int, b2: int)
    ensures Times(a, b2) - Times(a, b1) == Times(a, b2 - b1)
  {
    if a > 0 {
      TimesDifference(a - 1, b1, b2);
    }
  }

  /** A positive second argument makes the product at least the first. */
  lemma {:induction false} TimesAtLeast(a: nat, b: int)
    requires b >= 1
    ensures Times(a, b) >= a
  {
    if a > 0 {
      TimesAtLeast(a - 1, b);
    }
  }

  /** Times with one more in the second argument. */
  lemma TimesNext(a: nat, b: int)
    ensures Times(a, b + 1) == Times(a, b) + a
  {
    TimesDifference(a, b, b + 1);
    TimesIsProduct(a, 1);
  }

  /** One coordinate at iteration i: `start`, then at each earlier
      iteration k a step of `s` when (k + 1) * d passes
      dm * |coordinate - start|. */
  function AxisAt(start: int, d: nat, s: int, dm: nat, i: nat, cmp: Comparison): int
  {
    if i == 0 then start
    else
      var prev := AxisAt(start, d, s, dm, i - 1, cmp);
      if Moves(cmp, Times(i, d), Times(dm, Abs(prev - start))) then prev + s else prev
  }

  /** The loop body's test on one axis, with the products the source
      computes, decides the next value. */
  lemma AxisNext(start: int, d: nat, s: int, dm: nat, i: nat, cmp: Comparison, pos: int)
    requires pos == AxisAt(start, d, s, dm, i, cmp)
    ensures AxisAt(start, d, s, dm, i + 1, cmp) ==
      if Moves(cmp, (i + 1) * d, dm * Abs(pos - start)) then pos + s else pos
  {
    TimesIsProduct(i + 1, d);
    TimesIsProduct(dm, Abs(pos - start));
  }

  /** The loop variables (x, y, z) at iteration i. */
  function OffsetAt(seg: Segment, i: nat, cmp: Comparison): Point
  {
    Point(AxisAt(seg.x1, seg.Dx(), Direction(seg.x1, seg.x2), seg.Steps(), i, cmp),
          AxisAt(seg.y1, seg.Dy(), Direction(seg.y1, seg.y2), seg.Steps(), i, cmp),
          AxisAt(seg.z1, seg.Dz(), Direction(seg.z1, seg.z2), seg.Steps(), i, cmp))
  }

  /** Iteration i's `putOffset`: the orientation's own point plus the loop
      variables, given as the local point. */
  function LineCall(o: Orientation, seg: Segment, material: Material, cmp: Comparison): int -> seq<Put>
  {
    i => if i < 0 then [] else [Put(o, o.point.Plus(OffsetAt(seg, i, cmp)), material)]
  }

  /** Every `putOffset` call of one `drawLine`, iterations 0 to dm. */
  function LineCalls(o: Orientation, seg: Segment, material: Material, cmp: Comparison): seq<Put>
  {
    Span(0, seg.Steps() + 1, LineCall(o, seg, material, cmp))
  }

  /** Iteration i's call, given the loop variables of iteration i. */
  lemma CallAt(o: Orientation, seg: Segment, material: Material, cmp: Comparison, i: nat, x: int, y: int, z: int)
    requires Point(x, y, z) == OffsetAt(seg, i, cmp)
    ensures LineCall(o, seg, material, cmp)(i) == [Put(o, Point(o.point.x + x, o.point.y + y, o.point.z + z), material)]
  {
  }

  /** One axis's update in the loop body: step by `s` when the test on
      (i + 1) * d against dm * |pos - start| passes. */
  method StepAxis(pos: int, start: int, d: nat, s: int, dm: nat, i: nat, cmp: Comparison) returns (next: int)
    requires pos == AxisAt(start, d, s, dm, i, cmp)
    ensures next == AxisAt(start, d, s, dm, i + 1, cmp)
  {
    AxisNext(start, d, s, dm, i, cmp, pos);
    next := pos;
    if Moves(cmp, (i + 1) * d, dm * Abs(pos - start)) {
      next := pos + s;
    }
  }

  /** `drawLine`: dm + 1 `putOffset` calls, one per iteration, each at the
      orientation's point plus the loop variables (x, y, z). `AsWritten`
      is the source's loop, `Corrected` the repaired one. */
  method DrawLine(o: Orientation, seg: Segment, material: Material, cmp: Comparison) returns (calls: seq<Put>)
    ensures calls == LineCalls(o, seg, material, cmp)
  {
    var dx, dy, dz := Abs(seg.x2 - seg.x1), Abs(seg.y2 - seg.y1), Abs(seg.z2 - seg.z1);
    var sx, sy, sz := Direction(seg.x1, seg.x2), Direction(seg.y1, seg.y2), Direction(seg.z1, seg.z2);
    var dm := Max(Max(dx, dy), dz);
    var x, y, z := seg.x1, seg.y1, seg.z1;
    assert dx == seg.Dx() && dy == seg.Dy() && dz == seg.Dz() && dm == seg.Steps();
    calls := [];
    for i := 0 to dm + 1
      invariant calls == Span(0, i, LineCall(o, seg, material, cmp))
      invariant i <= dm ==> Point(x, y, z) == OffsetAt(seg, i, cmp)
    {
      SpanNext(0, i, LineCall(o, seg, material, cmp));
      CallAt(o, seg, material, cmp, i, x, y, z);
      calls := calls + [Put(o, Point(o.point.x + x, o.point.y + y, o.point.z + z), material)];
      if i < dm {
        x := StepAxis(x, seg.x1, dx, sx, dm, i, cmp);
        y := StepAxis(y, seg.y1, dy, sy, dm, i, cmp);
        z := StepAxis(z, seg.z1, dz, sz, dm, i, cmp);
      }
    }
  }

  /** Call k of a line, for k from 0 to dm. */
  lemma LineCallsAt(o: Orientation, seg: Segment, material: Material, cmp: Comparison, k: int)
    requires 0 <= k <= seg.Steps()
    ensures |LineCalls(o, seg, material, cmp)| == seg.Steps() + 1
    ensures LineCalls(o, seg, material, cmp)[k] == Put(o, o.point.Plus(OffsetAt(seg, k, cmp)), material)
  {
    SpanSingleAt(0, seg.Steps() + 1, LineCall(o, seg, material, cmp), k);
  }

  /** Whichever comparison is used, a line is dm + 1 calls with the given
      orientation and material; call k is at the orientation's point plus
      the loop variables of iteration k, starting from (x1, y1, z1). */
  lemma LineShape(o: Orientation, seg: Segment, material: Material, cmp: Comparison)
    ensures |LineCalls(o, seg, material, cmp)| == seg.Steps() + 1
    ensures forall k :: 0 <= k <= seg.Steps() ==>
      LineCalls(o, seg, material, cmp)[k] == Put(o, o.point.Plus(OffsetAt(seg, k, cmp)), material)
    ensures LineCalls(o, seg, material, cmp)[0].local == o.point.Plus(seg.Start())
  {
    LineCallsAt(o, seg, material, cmp, 0);
    forall k | 0 <= k <= seg.Steps()
      ensures LineCalls(o, seg, material, cmp)[k] == Put(o, o.point.Plus(OffsetAt(seg, k, cmp)), material)
    {
      LineCallsAt(o, seg, material, cmp, k);
    }
  }

  /** Between consecutive iterations each coordinate moves by at most one
      block, toward its end value. */
  lemma AxisStep(start: int, d: nat, s: int, dm: nat, i: nat, cmp: Comparison)
    ensures AxisAt(start, d, s, dm, i + 1, cmp) - AxisAt(start, d, s, dm, i, cmp) in {0, s}
  {
  }

  lemma LineSteps(seg: Segment, i: nat, cmp: Comparison)
    ensures -1 <= OffsetAt(seg, i + 1, cmp).x - OffsetAt(seg, i, cmp).x <= 1
    ensures -1 <= OffsetAt(seg, i + 1, cmp).y - OffsetAt(seg, i, cmp).y <= 1
    ensures -1 <= OffsetAt(seg, i + 1, cmp).z - OffsetAt(seg, i, cmp).z <= 1
  {
    AxisStep(seg.x1, seg.Dx(), Direction(seg.x1, seg.x2), seg.Steps(), i, cmp);
    AxisStep(seg.y1, seg.Dy(), Direction(seg.y1, seg.y2), seg.Steps(), i, cmp);
    AxisStep(seg.z1, seg.Dz(), Direction(seg.z1, seg.z2), seg.Steps(), i, cmp);
  }

  /** With the strict test, after i iterations an axis has moved m blocks
      toward its end, with i * d <= dm * m < i * d + dm: m is i * d / dm
      rounded up. */
  lemma {:induction false} CorrectedProgress(start: int, d: nat, s: int, dm: nat, i: nat)
    requires s == 1 || s == -1
    requires d <= dm && i <= dm
    ensures var pos := AxisAt(start, d, s, dm, i, Corrected);
      (s == 1 ==> pos >= start) && (s == -1 ==> pos <= start) &&
      Times(i, d) <= Times(dm, Abs(pos - start)) &&
      (dm > 0 ==> Times(dm, Abs(pos - start)) < Times(i, d) + dm)
  {
    if i > 0 {
      CorrectedProgress(start, d, s, dm, i - 1);
      var prev := AxisAt(start, d, s, dm, i - 1, Corrected);
      var m := Abs(prev - start);
      assert Times(i, d) == Times(i - 1, d) + d;
      if Times(i, d) > Times(dm, m) {
        assert AxisAt(start, d, s, dm, i, Corrected) == prev + s;
        assert Abs(prev + s - start) == m + 1;
        TimesNext(dm, m);
      } else {
        assert AxisAt(start, d, s, dm, i, Corrected) == prev;
      }
    } else {
      TimesIsProduct(dm, 0);
    }
  }

  /** dm * m pinned between dm * d and dm * d + dm forces m == d. */
  lemma PinnedMultiple(dm: nat, m: nat, d: nat)
    requires dm > 0 && Times(dm, d) <= Times(dm, m) < Times(dm, d) + dm
    ensures m == d
  {
    if m < d {
      TimesDifference(dm, m, d);
      TimesAtLeast(dm, d - m);
    } else if m > d {
      TimesDifference(dm, d, m);
      TimesAtLeast(dm, m - d);
    }
  }

  /** With the strict test an axis whose extent is within dm ends exactly
      at its end value after dm iterations. */
  lemma CorrectedAxisEnd(start: int, end: int, dm: nat)
    requires Abs(end - start) <= dm
    ensures AxisAt(start, Abs(end - start), Direction(start, end), dm, dm, Corrected) == end
  {
    var d, s := Abs(end - start), Direction(start, end);
    CorrectedProgress(start, d, s, dm, dm);
    var pos := AxisAt(start, d, s, dm, dm, Corrected);
    if dm > 0 {
      PinnedMultiple(dm, Abs(pos - start), d);
    }
  }

  /** The corrected line has dm + 1 calls and the last one is at the
      orientation's point plus (x2, y2, z2): the line ends where it was
      asked to. */
  lemma CorrectedLineEnds(o: Orientation, seg: Segment, material: Material)
    ensures |LineCalls(o, seg, material, Corrected)| == seg.Steps() + 1 &&
      LineCalls(o, seg, material, Corrected)[seg.Steps()].local == o.point.Plus(seg.End())
  {
    LineCallsAt(o, seg, material, Corrected, seg.Steps());
    CorrectedAxisEnd(seg.x1, seg.x2, seg.Steps());
    CorrectedAxisEnd(seg.y1, seg.y2, seg.Steps());
    CorrectedAxisEnd(seg.z1, seg.z2, seg.Steps());
    assert OffsetAt(seg, seg.Steps(), Corrected) == seg.End();
  }

  /** As written, an axis with no extent still steps once, by -1, on the
      first iteration of any line longer than one block. */
  lemma AsWrittenFlatAxisDrifts(seg: Segment)
    requires seg.y1 == seg.y2 && seg.Steps() > 0
    ensures OffsetAt(seg, 1, AsWritten).y == seg.y1 - 1
  {
    AxisNext(seg.y1, 0, -1, seg.Steps(), 0, AsWritten, seg.y1);
  }

  /** The front bottom edge of a 3-wide room, (0,0,0) to (2,0,0), as
      written ends at (2,-1,-1) instead of (2,0,0). */
  lemma AsWrittenMissesEnd(material: Material)
    ensures var seg := Segment(0, 0, 0, 2, 0, 0);
      var calls := LineCalls(ZeroOrientation, seg, material, AsWritten);
      |calls| == 3 && calls[2].local == Point(2, -1, -1) && calls[2].local != seg.End()
  {
    var seg := Segment(0, 0, 0, 2, 0, 0);
    assert seg.Steps() == 2;
    LineCallsAt(ZeroOrientation, seg, material, AsWritten, 2);
    AsWrittenAxes();
    assert OffsetAt(seg, 2, AsWritten) == Point(2, -1, -1);
  }

  /** The same line in any frame: its third call is two blocks along x and
      one block below and in front of the frame's point. */
  lemma AsWrittenThirdCall(o: Orientation, seg: Segment, material: Material)
    requires seg.x1 == 0 && seg.y1 == 0 && seg.z1 == 0 && seg.x2 == 2 && seg.y2 == 0 && seg.z2 == 0
    ensures |LineCalls(o, seg, material, AsWritten)| == 3
    ensures LineCalls(o, seg, material, AsWritten)[2].local == o.point.Plus(Point(2, -1, -1))
  {
    assert seg.Steps() == 2;
    LineCallsAt(o, seg, material, AsWritten, 2);
    AsWrittenAxes();
    assert OffsetAt(seg, 2, AsWritten) == Point(2, -1, -1);
  }

  /** The loop variables after the last iteration of the line from
      (0,0,0) to (2,0,0): (2,-1,-1) as written, (2,0,0) corrected. */
  lemma ThreeBlockLine()
    ensures OffsetAt(Segment(0, 0, 0, 2, 0, 0), 2, AsWritten) == Point(2, -1, -1)
    ensures OffsetAt(Segment(0, 0, 0, 2, 0, 0), 2, Corrected) == Point(2, 0, 0)
  {
    AsWrittenAxes();
    CorrectedAxisEnd(0, 2, 2);
    CorrectedAxisEnd(0, 0, 2);
  }

  /** The three axes of that line: x reaches 2, y and z drift to -1. */
  lemma AsWrittenAxes()
    ensures AxisAt(0, 2, 1, 2, 2, AsWritten) == 2
    ensures AxisAt(0, 0, -1, 2, 2, AsWritten) == -1
  {
    AxisNext(0, 2, 1, 2, 0, AsWritten, 0);
    AxisNext(0, 2, 1, 2, 1, AsWritten, 1);
    AxisNext(0, 0, -1, 2, 0, AsWritten, 0);
    AxisNext(0, 0, -1, 2, 1, AsWritten, -1);
  }
}
