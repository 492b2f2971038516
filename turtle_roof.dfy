// The `roof` turtle command (scripts/turtle-commands/roof.ts): a fill one
// level above the turtle.
module TurtleRoofs {
  import opened Geometry
  import opened Blocks
  import opened Turtles

  function RoofCalls(width: int, depth: int, block: Material): seq<Call>
  {
    [Up(1), Fill(block, width, depth), Down(1)]
  }

  method Roof(tb: TurtleBuilder, width: int, depth: int, block: Material) returns (same: TurtleBuilder)
    modifies tb
    ensures same == tb && tb.State() == Steps(old(tb.State()), RoofCalls(width, depth, block))
  {
    same := tb.Then(RoofCalls(width, depth, block));
  }

  /** The roof fills the rectangle one level up; position and facing end as
      they started. */
  lemma RoofEffect(s: TurtleState, width: int, depth: int, block: Material)
    ensures var e := Steps(s, RoofCalls(width, depth, block));
      && e.pos == s.pos && e.facing == s.facing
      && e.placed == s.placed + FillArea(Point(s.pos.x, s.pos.y + 1, s.pos.z), block, width, depth)
  {
    var f := Fill(block, width, depth);
    StepsSnoc(s, [], Up(1));
    assert [] + [Up(1)] == [Up(1)];
    StepsSnoc(s, [Up(1)], f);
    assert [Up(1)] + [f] == [Up(1), f];
    StepsSnoc(s, [Up(1), f], Down(1));
    assert [Up(1), f] + [Down(1)] == RoofCalls(width, depth, block);
  }
}
