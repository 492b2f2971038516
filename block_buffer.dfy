// The in-memory world buffer (scripts/io/BlockBuffer.ts).
module BlockBuffers {
  import opened Errors
  import opened Geometry
  import opened Blocks
  import opened Puts
  import opened Spans

  /** What a buffer holds: the stored cells and the order in which each cell
      was first stored, which is the order a JavaScript Map iterates in.
      Cells are keyed by the point itself; the packed integer key is taken
      as a one-to-one encoding of the point. */
  datatype BufferState = BufferState(cells: map<Point, Block>, order: seq<Point>) {
    ghost predicate Valid()
    {
      Distinct(order) && forall p :: p in cells <==> p in order
    }

    /** The stored blocks in first-insertion order. */
    function Values(): (r: seq<Block>)
      requires Valid()
      ensures |r| == |cells|
      ensures forall p :: p in cells ==> cells[p] in r
      ensures forall b :: b in r ==> exists p :: p in cells && cells[p] == b
      ensures |r| == |order| && forall i :: 0 <= i < |order| ==> r[i] == cells[order[i]]
    {
      DistinctCardinality(order, cells);
      var r := seq(|order|, i requires 0 <= i < |order| => cells[order[i]]);
      assert forall i :: 0 <= i < |order| ==> r[i] == cells[order[i]];
      assert forall p :: p in cells ==> exists i :: 0 <= i < |order| && order[i] == p && r[i] == cells[p];
      r
    }
  }

  const Empty := BufferState(map[], [])

  /** `Map.set`: a new key goes to the end of the iteration order, a key
      already present keeps its place and takes the new block. */
  function Store(s: BufferState, p: Point, b: Block): (t: BufferState)
    ensures t.cells == s.cells[p := b]
    ensures s.Valid() ==> t.Valid()
    ensures p in s.cells ==> t.order == s.order
    ensures p !in s.cells ==> t.order == s.order + [p]
  {
    if p in s.cells then BufferState(s.cells[p := b], s.order)
    else BufferState(s.cells[p := b], s.order + [p])
  }

  /** Where `putOffset(position, orientation, t)` writes: the two horizontal
      components of the orientation point are added, swapped or negated
      according to the rotation, and the heights add. */
  function OffsetTarget(position: Point, orientation: Orientation): (r: Result<Point>)
    ensures r.Success? <==> ValidRotation(orientation.rotation)
    ensures !ValidRotation(orientation.rotation) ==> r == Failure(InvalidRotation(orientation.rotation))
    ensures r.Success? ==> r.value.y == position.y + orientation.point.y
  {
    var o := orientation.point;
    match orientation.rotation
    case 0 => Success(Point(position.x + o.x, position.y + o.y, position.z + o.z))
    case 90 => Success(Point(position.x + o.z, position.y + o.y, position.z + o.x))
    case 180 => Success(Point(position.x - o.x, position.y + o.y, position.z - o.z))
    case 270 => Success(Point(position.x + o.z, position.y + o.y, position.z - o.x))
    case _ => Failure(InvalidRotation(orientation.rotation))
  }

  /** For a fixed orientation, `putOffset` translates: the written cells
      differ exactly as the positions do, so two positions never collide. */
  lemma OffsetIsTranslation(p1: Point, p2: Point, o: Orientation)
    requires ValidRotation(o.rotation)
    ensures OffsetTarget(p1, o).value.x - OffsetTarget(p2, o).value.x == p1.x - p2.x
    ensures OffsetTarget(p1, o).value.y - OffsetTarget(p2, o).value.y == p1.y - p2.y
    ensures OffsetTarget(p1, o).value.z - OffsetTarget(p2, o).value.z == p1.z - p2.z
    ensures OffsetTarget(p1, o) == OffsetTarget(p2, o) ==> p1 == p2
  {
  }

  /** At rotation 0 the orientation point is simply added. */
  lemma OffsetAtZero(p: Point, anchor: Point)
    ensures OffsetTarget(p, Orientation(anchor, 0)) == Success(p.Plus(anchor))
  {
  }

  /** The four placements the buffer's own tests expect for position (1,2,3)
      and orientation point (1,1,1). */
  lemma OffsetExamples()
    ensures OffsetTarget(Point(1, 2, 3), Orientation(Point(1, 1, 1), 0)) == Success(Point(2, 3, 4))
    ensures OffsetTarget(Point(1, 2, 3), Orientation(Point(1, 1, 1), 90)) == Success(Point(2, 3, 4))
    ensures OffsetTarget(Point(1, 2, 3), Orientation(Point(1, 1, 1), 180)) == Success(Point(0, 3, 2))
    ensures OffsetTarget(Point(1, 2, 3), Orientation(Point(1, 1, 1), 270)) == Success(Point(2, 3, 2))
  {
  }

  /** One `putOffset` call on a buffer state: the new state, and the error
      thrown (in which case nothing was written). */
  function OffsetStore(s: BufferState, c: Put): (BufferState, Option<Error>)
  {
    match OffsetTarget(c.local, c.orientation)
    case Success(p) => (Store(s, p, Block(c.material)), None)
    case Failure(e) => (s, Some(e))
  }

  /** How `putOffset` reacts to a call, whatever the buffer holds: it
      throws exactly when the rotation is not a quarter turn. */
  function OffsetError(c: Put): (e: Option<Error>)
    ensures e.None? <==> ValidRotation(c.orientation.rotation)
    ensures e.Some? ==> e.value == InvalidRotation(c.orientation.rotation)
    ensures forall s :: OffsetStore(s, c).1 == e
  {
    match OffsetTarget(c.local, c.orientation)
    case Success(_) => None
    case Failure(e) => Some(e)
  }

  /** A run of `putOffset` calls, each applied in turn; a call that throws
      writes nothing. */
  function ApplyAll(s: BufferState, calls: seq<Put>): (t: BufferState)
    ensures s.Valid() ==> t.Valid()
    decreases |calls|
  {
    if calls == [] then s else ApplyAll(OffsetStore(s, calls[0]).0, calls[1..])
  }

  lemma {:induction false} ApplyAllAppend(s: BufferState, a: seq<Put>, b: seq<Put>)
    ensures ApplyAll(s, a + b) == ApplyAll(ApplyAll(s, a), b)
    decreases |a|
  {
    if a == [] {
      assert a + b == b;
    } else {
      assert (a + b)[0] == a[0];
      assert (a + b)[1..] == a[1..] + b;
      ApplyAllAppend(OffsetStore(s, a[0]).0, a[1..], b);
    }
  }

  /** The last call that lands on a cell decides its block, whatever came
      before. */
  lemma {:induction false} ApplyAllLastWins(s: BufferState, a: seq<Put>, c: Put, b: seq<Put>)
    requires OffsetTarget(c.local, c.orientation).Success?
    requires forall k :: 0 <= k < |b| ==> OffsetTarget(b[k].local, b[k].orientation) != OffsetTarget(c.local, c.orientation)
    ensures var p := OffsetTarget(c.local, c.orientation).value;
            p in ApplyAll(s, a + [c] + b).cells && ApplyAll(s, a + [c] + b).cells[p] == Block(c.material)
  {
    var p := OffsetTarget(c.local, c.orientation).value;
    ApplyAllAppend(s, a + [c], b);
    ApplyAllAppend(s, a, [c]);
    var mid := ApplyAll(s, a + [c]);
    assert mid == OffsetStore(ApplyAll(s, a), c).0;
    UntouchedCell(mid, b, p);
  }

  /** Calls that never land on a cell leave it as it was. */
  lemma {:induction false} UntouchedCell(s: BufferState, b: seq<Put>, p: Point)
    requires p in s.cells
    requires forall k :: 0 <= k < |b| ==> OffsetTarget(b[k].local, b[k].orientation) != Success(p)
    ensures p in ApplyAll(s, b).cells && ApplyAll(s, b).cells[p] == s.cells[p]
    decreases |b|
  {
    if b != [] {
      UntouchedCell(OffsetStore(s, b[0]).0, b[1..], p);
    }
  }

  /** `putOffset` for each call in turn, stopping at the first one that
      throws: the state reached, and that exception. */
  function OffsetRun(s: BufferState, calls: seq<Put>): (BufferState, Option<Error>)
    decreases |calls|
  {
    if calls == [] then (s, None)
    else
      var first := OffsetStore(s, calls[0]);
      if first.1.Some? then first else OffsetRun(first.0, calls[1..])
  }

  /** A run of a + b is the run of a, then, if a did not throw, the run of b
      from where a left the buffer. */
  lemma {:induction false} OffsetRunAppend(s: BufferState, a: seq<Put>, b: seq<Put>)
    ensures OffsetRun(s, a + b)
      == (var r := OffsetRun(s, a); if r.1.Some? then r else OffsetRun(r.0, b))
    decreases |a|
  {
    if a == [] {
      assert a + b == b;
    } else {
      assert (a + b)[0] == a[0];
      assert (a + b)[1..] == a[1..] + b;
      var first := OffsetStore(s, a[0]);
      if first.1.None? {
        OffsetRunAppend(first.0, a[1..], b);
      }
    }
  }

  /** Calls whose rotations are all quarter turns never throw: the run is
      ApplyAll. */
  lemma {:induction false} OffsetRunValid(s: BufferState, calls: seq<Put>)
    requires forall k :: 0 <= k < |calls| ==> ValidRotation(calls[k].orientation.rotation)
    ensures OffsetRun(s, calls) == (ApplyAll(s, calls), None)
    decreases |calls|
  {
    if calls != [] {
      assert ValidRotation(calls[0].orientation.rotation);
      OffsetRunValid(OffsetStore(s, calls[0]).0, calls[1..]);
    }
  }

  /** A loop over lo..hi-1 whose iteration i throws has run as far as the
      loop ever runs. */
  lemma SpanRunStops(s: BufferState, lo: int, i: int, hi: int, f: int -> seq<Put>)
    requires lo <= i < hi
    requires OffsetRun(s, Span(lo, i + 1, f)).1.Some?
    ensures OffsetRun(s, Span(lo, hi, f)) == OffsetRun(s, Span(lo, i + 1, f))
  {
    SpanSplit(lo, i + 1, hi, f);
    OffsetRunAppend(s, Span(lo, i + 1, f), Span(i + 1, hi, f));
  }

  class BlockBuffer {
    var cells: map<Point, Block>
    var order: seq<Point>

    function State(): BufferState
      reads this
    {
      BufferState(cells, order)
    }

    ghost predicate Valid()
      reads this
    {
      State().Valid()
    }

    constructor ()
      ensures Valid() && State() == Empty
    {
      cells := map[];
      order := [];
    }

    /** `allBlocks()`: the stored blocks in first-insertion order. */
    function AllBlocks(): (r: seq<Block>)
      reads this
      requires Valid()
      ensures |r| == |cells|
      ensures forall p :: p in cells ==> cells[p] in r
      ensures forall b :: b in r ==> exists p :: p in cells && cells[p] == b
      ensures |r| == |order| && forall i :: 0 <= i < |order| ==> r[i] == cells[order[i]]
    {
      State().Values()
    }

    /** `put(position, t)`: stores a fresh Block of type t. */
    method Put(position: Point, t: Material)
      requires Valid()
      modifies this
      ensures Valid() && State() == Store(old(State()), position, Block(t))
    {
      if position !in cells {
        order := order + [position];
      }
      cells := cells[position := Block(t)];
    }

    method PutXYZ(x: int, y: int, z: int, t: Material)
      requires Valid()
      modifies this
      ensures Valid() && State() == Store(old(State()), Point(x, y, z), Block(t))
    {
      Put(Point(x, y, z), t);
    }

    /** `putOffset(position, orientation, t)`: writes at the rotated target,
        or throws for a rotation outside the four quarter turns and writes
        nothing. */
    method PutOffset(position: Point, orientation: Orientation, t: Material) returns (error: Option<Error>)
      requires Valid()
      modifies this
      ensures Valid()
      ensures (State(), error) == OffsetStore(old(State()), Puts.Put(orientation, position, t))
    {
      var target := OffsetTarget(position, orientation);
      if target.Failure? {
        return Some(target.error);
      }
      Put(target.value, t);
      error := None;
    }

    /** `get(position)`: the stored block, or nothing for a cell never
        written since the last clear. */
    function Get(position: Point): (r: Option<Block>)
      reads this
      requires Valid()
      ensures r.Some? <==> position in order
      ensures r.Some? ==> r.value == cells[position]
    {
      if position in cells then Some(cells[position]) else None
    }

    method Clear()
      modifies this
      ensures Valid() && State() == Empty
    {
      cells := map[];
      order := [];
    }

    /** `render(io)`: one `io.put` per stored cell, in first-insertion
        order. */
    method Render() returns (calls: seq<(Point, Block)>)
      requires Valid()
      ensures |calls| == |order| == |cells|
      ensures forall i :: 0 <= i < |calls| ==> calls[i].0 == order[i] && calls[i].1 == cells[order[i]]
    {
      DistinctCardinality(order, cells);
      calls := [];
      for i := 0 to |order|
        invariant |calls| == i
        invariant forall k :: 0 <= k < i ==> calls[k] == (order[k], cells[order[k]])
      {
        calls := calls + [(order[i], cells[order[i]])];
      }
    }
  }

  /** A repetition-free key order has as many entries as the map has keys. */
  lemma DistinctCardinality(order: seq<Point>, cells: map<Point, Block>)
    requires Distinct(order) && forall p :: p in cells <==> p in order
    ensures |order| == |cells|
  {
    DistinctSeqCard(order);
    assert cells.Keys == set p | p in order;
  }

  lemma {:induction false} DistinctSeqCard(s: seq<Point>)
    requires Distinct(s)
    ensures |set p | p in s| == |s|
  {
    if s != [] {
      var t := s[..|s| - 1];
      assert Distinct(t);
      DistinctSeqCard(t);
      assert (set p | p in s) == (set p | p in t) + {s[|s| - 1]};
      assert s[|s| - 1] !in t;
    }
  }

  /** Storing then reading gives back the stored block, and leaves every
      other cell as it was. */
  lemma GetAfterStore(s: BufferState, p: Point, q: Point, b: Block)
    ensures Store(s, p, b).cells[p] == b
    ensures q != p ==> (q in Store(s, p, b).cells <==> q in s.cells)
    ensures q != p && q in s.cells ==> Store(s, p, b).cells[q] == s.cells[q]
  {
  }

  /** The buffer's render-order test: Stone at (1,2,3) then BrickBlock at
      (2,2,3) come back in that order. */
  lemma RenderOrderExample()
    ensures Store(Store(Empty, Point(1, 2, 3), Block(Stone)), Point(2, 2, 3), Block(BrickBlock)).order
            == [Point(1, 2, 3), Point(2, 2, 3)]
  {
  }
}
