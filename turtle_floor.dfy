// The `floor` turtle command (scripts/turtle-commands/floor.ts): a fill at
// the turtle's own level.
module TurtleFloors {
  import opened Geometry
  import opened Blocks
  import opened Turtles

  method Floor(tb: TurtleBuilder, width: int, depth: int, block: Material) returns (same: TurtleBuilder)
    modifies tb
    ensures same == tb && tb.State() == Step(old(tb.State()), Fill(block, width, depth))
  {
    same := tb.Fill(block, width, depth);
  }

  /** The floor fills the rectangle at the current height and leaves
      position and facing as they were. */
  lemma FloorEffect(s: TurtleState, width: int, depth: int, block: Material)
    requires width >= 0 && depth >= 0
    ensures var e := Step(s, Fill(block, width, depth));
      && e.pos == s.pos && e.facing == s.facing
      && |e.placed| == |s.placed| + width * depth
      && forall q :: q in e.placed[|s.placed|..] <==>
           q.block == block && q.point.y == s.pos.y
           && s.pos.x <= q.point.x < s.pos.x + width && s.pos.z <= q.point.z < s.pos.z + depth
  {
    var e := Step(s, Fill(block, width, depth));
    assert e.placed[|s.placed|..] == FillArea(s.pos, block, width, depth);
    FillAreaSize(s.pos, block, width, depth);
    forall q ensures q in FillArea(s.pos, block, width, depth) <==>
           q.block == block && q.point.y == s.pos.y
           && s.pos.x <= q.point.x < s.pos.x + width && s.pos.z <= q.point.z < s.pos.z + depth
    {
      FillAreaCells(s.pos, block, width, depth, q);
    }
  }
}
