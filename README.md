# HouseBuilder, modelled in Dafny

HouseBuilder builds Minecraft houses out of blocks. It offers three ways of
describing a house:

- **Prefabs.** A tree of prefabs: walls, floors, doors, windows, stairs,
  roofs, rooms and anchors. Each prefab draws itself through a `put(orientation,
  point, block)` callback and hands an orientation on to its children.
- **Turtle.** A turtle that walks the world putting blocks as it goes.
- **JSON.** A JSON house description that is turned into room prefabs.

The houses end up in an in-memory block buffer. That buffer maps a point and
an orientation to a world cell with a fixed table per rotation. A visualizer
draws wireframe, holographic, solid and coloured-bounds previews of a house
description. An AI front end validates a generated description and infers the
connections between its rooms. Several colour selectors choose stained glass
by coordinate sum, and an animated hollow sphere is redrawn frame by frame.

The model follows the source file by file, but not strictly one module per source file. glass_palette.dfy holds three modules: GlassPalette, for the arithmetic that scripts/libraries/FunkyGlass.ts, scripts/libraries/ColorBlockSelector.ts and scripts/libraries/coolMaterial.ts share; CoolMaterial, for coolMaterial.ts itself; and DynamicBlocks, for scripts/textures/ColorBlockSelector.ts. scripts/visualization/HouseVisualizer.ts is split into VisualizerLines and HouseVisualizers. A few modules hold shared pieces that no single file owns: JsMath (JavaScript number operations), Errors (error values and integer printing), Spans (the sequences counted loops emit) and Blocks (the block types).

**Pure code becomes functions and lemmas:**

- the rotation tables;
- the prefab geometry;
- the colour selectors;
- the validation and adjacency rules.

**Code that changes state becomes classes with `modifies` clauses:**

- the block buffer, whose map is the `cells`/`order` state of `BlockBuffer`;
- a prefab's child list (`Prefabs.Prefab`);
- the turtle (`Turtles.TurtleBuilder`);
- the JSON builder;
- the sphere's remembered points (`Spheres.SphereDrawer`).

**Loops become methods.** Each such method is proved against a function that
states what it computes.

**Callbacks are modelled as data:**

- A `put` callback is the sequence of calls it receives (`Puts.Put`).
- A callback's reaction is a function from a call to an optional exception.
- Thrown exceptions are `Errors.Error` values carried in `Result`/`Option`.

Rotations are plain integers. The buffer and the prefabs throw on anything
other than 0, 90, 180 and 270, exactly where the source does.

The visualizer's line drawer has a stepping test that misses its end point
(see "## Findings"). Every visualizer member takes a `Comparison`: `AsWritten`
is the program's `>=` test and `Corrected` the strict `>` one. With
`AsWritten` the members are the program's preview; the frame, order and
success lemmas hold for both.

## Model

| member | source | states |
|---|---|---|
| JsMath.Rem | scripts/libraries/coolMaterial.ts:34 | JavaScript's `%` on whole numbers: the magnitude is the Euclidean remainder of the magnitudes and the sign follows the dividend, so it can be negative where Dafny's `%` is not |
| Errors.NatToString | scripts/ai/AIHouseBuilder.ts:189 | the decimal text that a template literal splices into a message is non-empty, made of digits, and starts with 0 only when it is "0" |
| Errors.IntToString | scripts/prefabs/Prefab.ts:83 | the text of a whole number starts with a minus sign exactly when the number is negative |
| Errors.NatToStringRoundTrip | scripts/ai/AIHouseBuilder.ts:189 | reading the printed digits back as a decimal number gives the number |
| Errors.IntToStringRoundTrip | scripts/prefabs/Prefab.ts:83 | reading the printed text back, minus sign included, gives the number |
| Errors.IntToStringInjective | scripts/prefabs/Prefab.ts:83 | two numbers print the same text only when they are equal, so the rotation in an error message identifies the rotation |
| Geometry.NewPoint | scripts/geometry/Point.ts:9-13 | a point built with omitted coordinates has 0 in each of them |
| Geometry.QuarterOf | scripts/prefabs/Prefab.ts:73-84 | a rotation is one of the four understood quarter turns exactly when it is 0, 90, 180 or 270, and the quarter's degrees equal it |
| Geometry.Forward | scripts/prefabs/Prefab.ts:74-81 | the unit step along the length axis is horizontal and lies along exactly one of x and z |
| Geometry.ForwardHalfTurn | scripts/prefabs/Prefab.ts:74-81 | two further quarter turns reverse the direction of the length axis |
| Geometry.AroundAndAbove | scripts/geometry/Point.ts:21-26 | the box reaches rangeXZ either way along x and z and rangeY upward from the point, and contains the point when both ranges are non-negative |
| Positions.NewPosition | scripts/libraries/Types/Position.ts:5-8 | a fresh position has every coordinate 0 |
| Positions.AroundAndAbove | scripts/libraries/Types/Position.ts:16-29 | the corners lie `range` either way along x and z and `range` upward from the centre, so the box is 2·range wide and deep and range high |
| Positions.ReceiverIgnored | scripts/libraries/Types/Position.ts:16-29 | the box depends only on the centre and range: any two receivers give the same box |
| PrefabBase.Deliver | scripts/prefabs/Prefab.ts:38-43 | a run through the put callback makes no more calls than it was given |
| PrefabBase.DeliverAppend | scripts/prefabs/Prefab.ts:38-43 | delivering a prefab's own calls and then its children's to one callback is delivering the first list and, only when it ended without an exception, the second after it; an exception in the first list stops everything after it |
| PrefabBase.DeliverFacts | scripts/prefabs/Prefab.ts:38-43 | the calls made are a prefix of those asked for; the run ends normally exactly when every call returns normally, and otherwise with the exception of its last call, all earlier ones having returned |
| PrefabBase.Run | scripts/prefabs/Prefab.ts:38-43 | a draw run makes no more calls than the draw asks for |
| PrefabBase.Issue | scripts/prefabs/Prefab.ts:38-43 | issuing calls one by one, stopping at the first that throws, is the delivery of those calls |
| PrefabBase.DeliverAfterAccepted | scripts/prefabs/Prefab.ts:38-43 | once the first i calls returned normally, the run is those calls followed by the run of the rest |
| PrefabBase.OffsetPoint | scripts/prefabs/Prefab.ts:68-85 | a negative offset is refused before the rotation is looked at; an unknown rotation is refused with its value; otherwise the point is offset steps along the rotation's length axis |
| PrefabBase.OffsetPointAdditive | scripts/prefabs/Prefab.ts:68-85 | offsets add up: a step of a then b lands where a step of a + b does |
| PrefabBase.LocalToWorld | scripts/prefabs/Prefab.ts:92-101 | a local point is shifted by the anchor point, whatever the rotation |
| BlockBuffers.BufferState.Values | scripts/io/BlockBuffer.ts:11-13 | one value per stored cell, in first-insertion order: the i-th value is the block of the i-th key first stored; every stored block appears and nothing else does |
| BlockBuffers.Store | scripts/io/BlockBuffer.ts:57-59 | `Map.set`: the cell takes the block; a new key goes to the end of the iteration order, an existing key keeps its place; validity is kept |
| BlockBuffers.OffsetTarget | scripts/io/BlockBuffer.ts:16-48 | the target exists exactly for the four quarter turns and otherwise the call throws with the rotation; the height is always the sum of the two heights |
| BlockBuffers.OffsetIsTranslation | scripts/io/BlockBuffer.ts:16-48 | for a fixed orientation the target moves exactly as the position does, so two positions never land on one cell |
| BlockBuffers.OffsetAtZero | scripts/io/BlockBuffer.ts:26-29 | at rotation 0 the orientation point is added to the position |
| BlockBuffers.OffsetExamples | scripts/io/BlockBuffer.test.ts:41-60 | position (1,2,3) and orientation point (1,1,1) land on (2,3,4), (2,3,4), (0,3,2) and (2,3,2) at 0, 90, 180 and 270 degrees |
| BlockBuffers.OffsetError | scripts/io/BlockBuffer.ts:42-44 | a `putOffset` call throws exactly when its rotation is not a quarter turn, with that rotation, whatever the buffer holds |
| BlockBuffers.ApplyAll | scripts/io/BlockBuffer.ts:16-59 | applying a run of calls keeps the buffer valid |
| BlockBuffers.ApplyAllAppend | scripts/io/BlockBuffer.ts:16-59 | applying a + b is applying a, then b |
| BlockBuffers.ApplyAllLastWins | scripts/io/BlockBuffer.ts:57-59 | the last call that lands on a cell decides its block, whatever came before |
| BlockBuffers.UntouchedCell | scripts/io/BlockBuffer.ts:57-59 | calls that never land on a cell leave its block as it was |
| BlockBuffers.OffsetRunAppend | scripts/io/BlockBuffer.ts:16-48 | running a + b is running a and, if a did not throw, running b from where a left the buffer |
| BlockBuffers.OffsetRunValid | scripts/io/BlockBuffer.ts:42-44 | calls whose rotations are all quarter turns never throw, and the run writes every one of them |
| BlockBuffers.SpanRunStops | scripts/io/BlockBuffer.ts:42-44 | once an iteration of a loop of calls throws, the later iterations change nothing |
| BlockBuffers.BlockBuffer.constructor | scripts/io/BlockBuffer.ts:8 | a new buffer is empty and valid |
| BlockBuffers.BlockBuffer.AllBlocks | scripts/io/BlockBuffer.ts:11-13 | one block per stored cell, in first-insertion order: the i-th block is the one stored at the i-th position first put; every stored block appears and nothing else |
| BlockBuffers.BlockBuffer.Put | scripts/io/BlockBuffer.ts:57-59 | the buffer's new state is the old one with the cell set to a fresh block of the type |
| BlockBuffers.BlockBuffer.PutXYZ | scripts/io/BlockBuffer.ts:52-54 | the same as `put` at the point built from the three coordinates |
| BlockBuffers.BlockBuffer.PutOffset | scripts/io/BlockBuffer.ts:16-49 | writes at the rotated target, or throws for a rotation outside the four quarter turns and leaves the buffer unchanged |
| BlockBuffers.BlockBuffer.Get | scripts/io/BlockBuffer.ts:62-64 | a block comes back exactly for a cell that was written, and it is the stored one |
| BlockBuffers.BlockBuffer.Clear | scripts/io/BlockBuffer.ts:67-69 | the buffer is empty afterwards |
| BlockBuffers.BlockBuffer.Render | scripts/io/BlockBuffer.ts:72-77 | one output per stored cell, in first-insertion order, each carrying that cell's block |
| BlockBuffers.GetAfterStore | scripts/io/BlockBuffer.ts:57-64 | reading a cell just stored gives the stored block, and every other cell reads as before |
| BlockBuffers.RenderOrderExample | scripts/io/BlockBuffer.test.ts:29-40 | Stone at (1,2,3) then BrickBlock at (2,2,3) render in that order |
| GlassPalette.IndexedGlass | scripts/libraries/FunkyGlass.ts:27-30 | `new Block(list[i % 12])`: defined exactly for non-negative indices and negative multiples of twelve, where it is the colour at the index modulo twelve; always one of the palette's colours |
| GlassPalette.IndexedGlassPeriodic | scripts/libraries/ColorBlockSelector.ts:30-33 | for non-negative indices the lookup repeats every twelve |
| GlassPalette.IndexedGlassCovers | scripts/libraries/ColorBlockSelector.ts:30-33 | from any non-negative start, each of the twelve colours appears within the next twelve indices |
| GlassPalette.CoordinateSumShift | scripts/libraries/coolMaterial.ts:44-46 | a unit step along any axis is worth one tick of the index |
| GlassPalette.Gradient | scripts/libraries/ColorBlockSelector.ts:41-43 | on a non-negative coordinate sum the gradient is the colour at that sum modulo twelve (the same formula as scripts/libraries/FunkyGlass.ts:38-40) |
| GlassPalette.GradientPeriodic | scripts/libraries/FunkyGlass.ts:38-40 | twelve ticks later a non-negative gradient shows the same colour |
| GlassPalette.Sparkle | scripts/libraries/ColorBlockSelector.ts:72-75 | the sparkle adds 0, 1 or 2 to the base, and nothing unless the first random draw exceeds 0.9 |
| GlassPalette.SparkleIndex | scripts/libraries/FunkyGlass.ts:69-72 | the sparkle index lies between the coordinate sum and two above it (the same formula as scripts/libraries/coolMaterial.ts:75-78) |
| CoolMaterial.MaterialAt | scripts/libraries/coolMaterial.ts:34-35 | `materials[Math.abs(v % 12)]` is always one of the twelve glasses |
| CoolMaterial.GetMaterial | scripts/libraries/coolMaterial.ts:13-36 | the chosen material is a palette glass, picked by the formula's value |
| CoolMaterial.MaterialAtIgnoresSign | scripts/libraries/coolMaterial.ts:34 | dropping the remainder's sign makes v and -v pick the same glass |
| CoolMaterial.MaterialAtPeriodic | scripts/libraries/coolMaterial.ts:34-35 | for non-negative values the glass is the one at v modulo twelve and repeats every twelve |
| CoolMaterial.GradientMaterial | scripts/libraries/coolMaterial.ts:44-46 | with the gradient formula, `getMaterial` agrees with the gradient selectors wherever those are defined |
| DynamicBlocks.CalculateIndex | scripts/textures/ColorBlockSelector.ts:37-39 | the index is smaller than the factor in magnitude, and is the coordinate sum modulo the factor when that sum is non-negative |
| DynamicBlocks.CalculateIndexDefault | scripts/textures/ColorBlockSelector.ts:37 | with the default factor of 1 the index is always 0 |
| DynamicBlocks.WaveIsGradient | scripts/textures/ColorBlockSelector.ts:47-52 | the record's wave selector is the same function as its gradient selector |
| DynamicBlocks.GradientColour | scripts/textures/ColorBlockSelector.ts:41-49 | on a non-negative coordinate sum the gradient selector shows the glass at that sum modulo twelve |
| DynamicBlocks.SparkleColour | scripts/textures/ColorBlockSelector.ts:57-61 | because the base index uses the default factor, the sparkle selector only ever shows one of the first three glasses, and the first unless the first draw exceeds 0.9 |
| Anchors.New | scripts/prefabs/Anchor.ts:20-22 | a new anchor has the given orientation and no children |
| Anchors.AddDoor | scripts/prefabs/Anchor.ts:44-47 | exactly one door, at the anchor's own orientation and of the given type, is appended after the earlier children, and the anchor itself is returned |
| Anchors.BuildsChildren | scripts/prefabs/Anchor.ts:35-37 | building an anchor issues nothing of its own: it is the build of its children, in insertion order |
| Anchors.WallsDoNotChain | scripts/prefabs/PrefabFactory.ts:11-13 | every wall added to a prefab starts at the prefab's own orientation and the factory drops the rotation, so two equal walls, the second given a quarter turn, issue the same puts twice |
| Anchors.WallExample | scripts/prefabs/Prefab.ts:53-60 | an anchor at (1,2,3) facing 0 with two three-block walls fills (2,2,3), (3,2,3) and (4,2,3) twice through the buffer |
| Doors.New | scripts/prefabs/Door.ts:18-24 | an omitted orientation is the zero orientation; the door keeps its type |
| Doors.DrawSpec | scripts/prefabs/Door.ts:30-32 | a door makes exactly one put, at the local origin, of its own type, and never throws itself |
| Doors.ChildOrientation | scripts/prefabs/Door.ts:38-40 | the child anchor is the door's own orientation |
| Walls.New | scripts/prefabs/Wall.ts:20-30 | a wall exists exactly when its length is at least 1; otherwise the constructor throws the wall-length error |
| Walls.Draw | scripts/prefabs/Wall.ts:36-43 | the loop issues the puts at offsets 1 through length, or throws the invalid-rotation error at the first offset before any put |
| Walls.ChildOrientation | scripts/prefabs/Wall.ts:49-55 | the child anchor is the wall's anchor shifted length blocks along the length axis, with the same rotation; an invalid rotation throws |
| Walls.CallsShape | scripts/prefabs/Wall.ts:36-43 | a wall issues length puts with its own orientation and material; the k-th is k + 1 blocks along the length axis; no two are the same |
| Walls.WorldCellsAtZero | scripts/prefabs/Wall.ts:36-43 | at rotation 0 the wall fills the length cells east of its anchor |
| Floors.New | scripts/prefabs/Floor.ts:21-35 | a floor exists exactly when width and depth are both at least 1; the width is checked first, each with its own error |
| Floors.GetFloorPoint | scripts/prefabs/Floor.ts:69-82 | the rotation table puts width along the length axis and depth a quarter turn further; an unknown rotation throws with its value |
| Floors.Draw | scripts/prefabs/Floor.ts:41-49 | the nested loop issues the grid of puts, width outer and depth inner, or throws the invalid-rotation error before any put |
| Floors.ChildOrientation | scripts/prefabs/Floor.ts:55-61 | the child anchor is over the far corner cell (width-1, depth-1), same rotation; an invalid rotation throws |
| Floors.FloorPointInjective | scripts/prefabs/Floor.ts:69-82 | different grid cells map to different local points |
| Floors.CallsCover | scripts/prefabs/Floor.ts:41-49 | a floor issues width × depth puts, and a put is among them exactly when it is the floor's material at some cell of the grid |
| Floors.CallsDistinct | scripts/prefabs/Floor.ts:41-49 | no cell is put twice |
| Floors.ColumnsDistinct | scripts/prefabs/Floor.ts:44-47 | within one pass of the inner loop no cell is put twice |
| Floors.ColumnsDisjoint | scripts/prefabs/Floor.ts:43-48 | two different passes of the outer loop share no put |
| Staircases.New | scripts/prefabs/Stairs.ts:21-35 | stairs exist exactly when there is at least one step and the width, 1 when omitted, is at least 1; the step count is checked first |
| Staircases.GetStairPoint | scripts/prefabs/Stairs.ts:75-88 | the rotation table puts steps along the length axis, the width a quarter turn further and the height upward; an unknown rotation throws |
| Staircases.Draw | scripts/prefabs/Stairs.ts:42-52 | the nested loop issues each step's row at the step's own height, or throws the invalid-rotation error before any put |
| Staircases.ChildOrientation | scripts/prefabs/Stairs.ts:58-66 | the child anchor is over the first block of the top step, same rotation |
| Staircases.CallsCover | scripts/prefabs/Stairs.ts:42-52 | steps × width puts; a put is among them exactly when it is block w of some step s at height s; every height is below the step count |
| Staircases.CallsDistinct | scripts/prefabs/Stairs.ts:42-52 | no block is put twice |
| Staircases.StepsDistinct | scripts/prefabs/Stairs.ts:47-50 | within one step no block is put twice |
| Staircases.StepsDisjoint | scripts/prefabs/Stairs.ts:43-51 | two different steps share no put |
| Windows.New | scripts/prefabs/Window.ts:28-44 | a window is 2 by 2 GlassPane unless overridden; it exists exactly when both sides are at least 1, the width checked first, each with its own error |
| Windows.OccupiedPoints | scripts/prefabs/Window.ts:50-58 | the nested loop lists the pane's cells, x outer and y inner |
| Windows.OccupiedOrder | scripts/prefabs/Window.ts:50-58 | width × height points, the one at index x·height + y being (x, y, 0) |
| Windows.OccupiedIndex | scripts/prefabs/Window.ts:52-56 | the point at index x·height + y is (x, y, 0) |
| Windows.OccupiedMembers | scripts/prefabs/Window.ts:50-58 | a point is occupied exactly when 0 ≤ x < width, 0 ≤ y < height and z = 0 |
| Windows.OccupiedDistinct | scripts/prefabs/Window.ts:50-58 | no occupied point is listed twice |
| Windows.RowAt | scripts/prefabs/Window.ts:52-56 | the point for column x and row y sits at index x·height + y |
| Windows.CheckOverlap | scripts/prefabs/Window.ts:65-75 | the check pass puts every point until one throws, and reports an overlap exactly when one did |
| Windows.Draw | scripts/prefabs/Window.ts:82-92 | a check pass; if it reported an overlap, the window throws "Cannot place window: space is occupied"; otherwise a second pass puts every point again |
| Windows.DrawAccepted | scripts/prefabs/Window.ts:82-92 | with a put that never throws, every occupied point is put twice, check pass first, all with the window's orientation and block type |
| Windows.DrawRefused | scripts/prefabs/Window.ts:84-86 | when a put throws during the check, the draw throws the occupied error and has made only a prefix of the check pass |
| Windows.ChildOrientation | scripts/prefabs/Window.ts:98-102 | the child anchor is width blocks along the length axis, same rotation; an invalid rotation throws |
| Prefabs.ChildOrientation | scripts/prefabs/Anchor.ts:28-30 | containers and doors hand their children their own orientation; the other kinds compute it from their shape (scripts/prefabs/Room.ts:53-55 for rooms) |
| Prefabs.AndThen | scripts/prefabs/Prefab.ts:38-43 | a first run that threw is the whole run; otherwise the second run's calls follow the first's and its ending is the ending |
| Prefabs.AndThenAssociative | scripts/prefabs/Prefab.ts:38-43 | chaining runs is associative, so a tree's build can be regrouped freely |
| Prefabs.DrawAllAppend | scripts/prefabs/Prefab.ts:38-43 | drawing a + b is drawing a and then, if nothing threw, drawing b |
| Prefabs.BuildIsPreOrder | scripts/prefabs/Prefab.ts:38-43 | when every child orientation can be computed, building a tree draws its nodes in pre-order: each node before its children, children in insertion order, stopping at the first exception |
| Prefabs.BuildChildrenIsPreOrder | scripts/prefabs/Prefab.ts:40-42 | building the children from the i-th on draws their subtrees in pre-order |
| Prefabs.ContainerBuild | scripts/prefabs/Room.ts:45-55 | a container that draws nothing and passes its own orientation on builds exactly its children, in insertion order |
| Prefabs.ContainerChildren | scripts/prefabs/Anchor.ts:28-37 | the children of a container from the i-th on are built one after another |
| Prefabs.LoneDoor | scripts/prefabs/Door.ts:30-32 | a door with no children puts exactly its one block |
| Prefabs.Prefab.constructor | scripts/prefabs/Prefab.ts:23-25 | a new prefab keeps what it was constructed as and has no children |
| Prefabs.Prefab.AddWall | scripts/prefabs/Prefab.ts:53-60 | a length below 1 throws and adds nothing; otherwise exactly one wall at the prefab's own orientation is appended, whatever the rotation, and the prefab is returned |
| Prefabs.Prefab.Build | scripts/prefabs/Prefab.ts:38-43 | the orientation argument is ignored; the prefab's tree is built |
| Prefabs.DrawShape | scripts/prefabs/Prefab.ts:28 | each kind's draw makes its own calls through the callback |
| Prefabs.RunDrawn | scripts/prefabs/Prefab.ts:38-39 | a draw's calls are issued until one throws; if none does, the draw's own error ends the run |
| Prefabs.ChildrenRefused | scripts/prefabs/Prefab.ts:40-42 | a child orientation that throws ends the build before the next child |
| Prefabs.ChildrenStep | scripts/prefabs/Prefab.ts:40-42 | otherwise child i is built, then the rest |
| Prefabs.BuildNode | scripts/prefabs/Prefab.ts:38-43 | the recursive build is the pre-order traversal: draw, then the children |
| Prefabs.BuildChildNodes | scripts/prefabs/Prefab.ts:40-42 | the loop over the children builds each in insertion order, stopping at the first exception |
| PrefabFactory.CreateWall | scripts/prefabs/PrefabFactory.ts:11-13 | a wall with exactly the given orientation, material and length; a length below 1 is the wall constructor's error |
| PrefabFactory.CreateWallIgnoresRotation | scripts/prefabs/PrefabFactory.ts:11-13 | the rotation argument has no effect on the wall |
| PrefabFactory.CreateFloor | scripts/prefabs/Room.ts:72 | a floor with the given orientation, material and footprint, made exactly when both sides are at least 1 |
| PrefabFactory.CreateWindow | scripts/prefabs/Room.ts:145 | the window keeps the given orientation; without options it is the default 2 by 2 GlassPane; with options it takes their size and block type, each defaulting as the constructor does, and exists exactly when both sides are at least 1 |
| PrefabFactory.CreateDoor | scripts/prefabs/Room.ts:173 | the door has the given orientation and type |
| PrefabFactory.CreateStairs | scripts/prefabs/Room.ts:221 | one-block-wide stairs with the given orientation, material and step count, made exactly when there is at least one step |
| PrefabFactory.CreateRoof | scripts/prefabs/Room.ts:193 | a roof with the given orientation, material, footprint and style, made exactly when both sides are at least 1 |
| LegacyPrefabs.Render | scripts/Prefab.ts:5-10 | `render` makes one draw per node of the tree, the node's own first |
| LegacyPrefabs.RenderAll | scripts/Prefab.ts:7-9 | rendering a list of children makes one draw per node of all of them |
| LegacyPrefabs.LeafRender | scripts/Prefab.ts:5-10 | without children, `render` is just `draw` |
| LegacyPrefabs.RenderAllSplit | scripts/Prefab.ts:7-9 | rendering the children is the earlier children, then child i's own rendering, then the later ones |
| LegacyPrefabs.ChildBlock | scripts/Prefab.ts:5-10 | pre-order in insertion order: child i's draws form one contiguous block equal to its own rendering, after its parent and every earlier sibling |
| Rooms.Validate | scripts/prefabs/Room.ts:30-38 | a room exists exactly when width, depth and height are all at least 1, checked in that order, each with its own error |
| Rooms.New | scripts/prefabs/Room.ts:23-40 | the constructor throws the first failing check's error; otherwise a fresh room with those dimensions and no children |
| Rooms.WallConfigShape | scripts/prefabs/Room.ts:229-260 | each side's wall starts on a footprint corner at floor level, runs along the width (front, back) or the depth (left, right) one block short, and the four sides have four different quarter turns |
| Rooms.StairConfigShape | scripts/prefabs/Room.ts:265-279 | each stair position is the footprint corner it names, and the four corners have four different quarter turns |
| Rooms.PartOrientation | scripts/prefabs/Room.ts:105-112 | a part sits at the room's anchor shifted by the side's offset and raised by y, turned by the room's rotation plus the part's with JavaScript's `% 360` |
| Rooms.PartRotationValid | scripts/prefabs/Room.ts:111 | a room at a quarter turn gives its parts a quarter turn |
| Rooms.NegativeRotationStays | scripts/prefabs/Room.ts:111 | `% 360` keeps the sign: a room at -90 gives its front wall -90, which drawing rejects |
| Rooms.AddFloor | scripts/prefabs/Room.ts:63-75 | one floor covering the footprint, yOffset above the base, with the room's rotation, is appended and the room is returned |
| Rooms.AddCeiling | scripts/prefabs/Room.ts:82-84 | a floor at the room's height is appended |
| Rooms.WallStackShape | scripts/prefabs/Room.ts:104-115 | a stack of count walls, the k-th at height startHeight + k, each starting at the side's offset with its rotation and length |
| Rooms.BuildWall | scripts/prefabs/Room.ts:94-118 | wallHeight layers (the room's height when omitted) from startHeight up, one wall each; a wall the constructor refuses (a side of length 0) throws at the first layer with nothing added; a non-positive height adds nothing |
| Rooms.AddWindow | scripts/prefabs/Room.ts:128-148 | one window on the side's wall line, offsetHeight above the base; a window the constructor refuses throws and adds nothing |
| Rooms.BuildDoor | scripts/prefabs/Room.ts:157-176 | one door on the side's wall line, one block above the base, is appended |
| Rooms.AddRoof | scripts/prefabs/Room.ts:184-196 | one roof over the footprint at the room's height with the room's own rotation; the style defaults to flat |
| Rooms.AddStairs | scripts/prefabs/Room.ts:205-224 | one flight of stairs in the corner, one block above the base, or the stairs error with nothing added when steps is below 1 |
| Rooms.BuildsChildren | scripts/prefabs/Room.ts:45-55 | building a room builds its children in the order they were added, with nothing from the room itself |
| Roofs.New | scripts/prefabs/Roof.ts:24-39 | a roof exists exactly when width and depth are at least 1, width checked first; the style defaults to flat and is not checked |
| Roofs.GetRoofPoint | scripts/prefabs/Roof.ts:184-197 | the floor's rotation table with the height in y: the same horizontal point as the floor cell, raised by h; an unknown rotation throws |
| Roofs.DrawFlat | scripts/prefabs/Roof.ts:67-74 | the loop issues one put per footprint cell at height 0, width outer and depth inner, or throws the invalid-rotation error before any put |
| Roofs.DrawFlatRow | scripts/prefabs/Roof.ts:69-72 | one pass of the inner loop: the cells of column w, or the rotation's error at its first cell |
| Roofs.FlatIsFloor | scripts/prefabs/Roof.ts:67-74 | a flat roof is width × depth puts, all at local height 0 |
| Roofs.DrawGabled | scripts/prefabs/Roof.ts:79-95 | the loop issues, for every footprint cell whose height is non-negative, one put at height ⌊depth/2⌋ − abs(d − ⌊depth/2⌋) |
| Roofs.GableHeightRange | scripts/prefabs/Roof.ts:80-89 | every row of the footprint gets a height between 0 and ⌊depth/2⌋, the top reached exactly on the ridge row, so the `height >= 0` test never drops a cell |
| Roofs.GableSlope | scripts/prefabs/Roof.ts:86-87 | neighbouring rows differ in height by exactly one |
| Roofs.GabledCover | scripts/prefabs/Roof.ts:83-94 | a gabled roof puts exactly width × depth blocks, one for each footprint cell at its gable height |
| Roofs.DrawHipped | scripts/prefabs/Roof.ts:100-119 | the level loop issues the inset rectangles level by level and stops at the first empty one |
| Roofs.DrawHipLevel | scripts/prefabs/Roof.ts:104-117 | level y fills the rectangle [y, width−1−y] × [y, depth−1−y] at height y, or throws the rotation's error first |
| Roofs.DrawHipRow | scripts/prefabs/Roof.ts:113-116 | the innermost loop: column w of the inset rectangle at height y |
| Roofs.HipLevelsStop | scripts/prefabs/Roof.ts:101-110 | the inset rectangle at level y is non-empty exactly below HipLevels, and HipLevels never exceeds min(⌊width/2⌋, ⌊depth/2⌋) + 1, so the loop ends at the `break` or at the bound with the same puts |
| Roofs.DrawPyramidal | scripts/prefabs/Roof.ts:124-145 | the loop over ⌊max(width, depth)/2⌋ + 1 levels issues, at height y, every cell at least y from the footprint's edge |
| Roofs.DrawPyramidLevel | scripts/prefabs/Roof.ts:128-144 | one level: every footprint cell at least y from the edge, at height y |
| Roofs.DrawPyramidRow | scripts/prefabs/Roof.ts:132-142 | the inner loop: the cells of row w at least y from the edge, or the rotation's error at the first of them |
| Roofs.PyramidalIsHipped | scripts/prefabs/Roof.ts:100-145 | the pyramidal and hipped styles issue the very same puts: each pyramidal level is the hipped level's rectangle and the levels above the hipped top are empty |
| Roofs.PyramidLevelIsRectangle | scripts/prefabs/Roof.ts:131-143 | a pyramidal level below the hipped top is the hipped level's rectangle, in the same order |
| Roofs.HipLevelsInside | scripts/prefabs/Roof.ts:104-110 | a level below the hipped top fits inside the footprint |
| Roofs.PyramidGridIsRectangle | scripts/prefabs/Roof.ts:131-143 | the cells of a level kept by the edge-distance test are exactly the inset rectangle, in order |
| Roofs.PyramidRowsTrim | scripts/prefabs/Roof.ts:131-143 | the rows of a level outside [y, width − y) keep no cell and those inside keep the rectangle's row |
| Roofs.PyramidRowOutside | scripts/prefabs/Roof.ts:134-138 | a row closer than y to the edge keeps no cell |
| Roofs.PyramidRowInside | scripts/prefabs/Roof.ts:132-142 | a row at least y from the edge keeps exactly the cells of the rectangle's row |
| Roofs.PyramidLevelAboveTop | scripts/prefabs/Roof.ts:128-144 | a level at or above the hipped top keeps no cell |
| Roofs.Draw | scripts/prefabs/Roof.ts:45-62 | dispatch on the style; an unknown style throws "Unknown roof style" at draw time, before the rotation is looked at |
| Roofs.FlatHeights | scripts/prefabs/Roof.ts:67-74 | every put of a flat roof is at height 0 and one is put there |
| Roofs.GabledHeights | scripts/prefabs/Roof.ts:79-95 | every put of a gabled roof is between 0 and ⌊depth/2⌋ high and the ridge row reaches ⌊depth/2⌋ |
| Roofs.HippedHeights | scripts/prefabs/Roof.ts:100-119 | every put of a hipped roof is on a level below HipLevels and a put reaches the last level |
| Roofs.HipPutHeight | scripts/prefabs/Roof.ts:104-117 | a put of level y is at height y |
| Roofs.HipTopPut | scripts/prefabs/Roof.ts:104-117 | the last level of a hipped roof is not empty |
| Roofs.HipTopAgainstMaxHeight | scripts/prefabs/Roof.ts:163-175 | the last hipped level is min(⌊width/2⌋, ⌊depth/2⌋) when the shorter side is odd and one less when it is even |
| Roofs.MaxHeightIsTop | scripts/prefabs/Roof.ts:163-175 | `getMaxHeight` against `draw`: no put of a roof of a known style is higher than MaxHeight and some put reaches the top, which is MaxHeight for flat and gabled roofs and for hipped and pyramidal roofs with an odd shorter side, and MaxHeight − 1 for hipped and pyramidal roofs with an even shorter side |
| Roofs.ChildOrientation | scripts/prefabs/Roof.ts:151-158 | the child anchor is over the footprint's centre cell at the style's maximum height, same rotation |
| Turtles.Turn | scripts/TurtleBuilder.ts:56-69 | a turn reduced with JavaScript's `% 360` stays strictly between −360 and 360, and is non-negative when the sum is |
| Turtles.Line | scripts/TurtleBuilder.ts:37-43 | a wall of n places max(n, 0) blocks |
| Turtles.FillColumn | scripts/TurtleBuilder.ts:103-106 | one column of a fill places max(depth, 0) blocks |
| Turtles.MoveAdditive | scripts/TurtleBuilder.ts:128-135 | moves along one facing add up, and never change the height |
| Turtles.MoveReverses | scripts/TurtleBuilder.ts:71-89 | from a compass facing, `backward(n)` undoes `forward(n)` and `right(n)` undoes `left(n)` |
| Turtles.RightOfCompass | scripts/TurtleBuilder.ts:56-59 | a right turn from a compass facing is the next compass facing clockwise, 270 wrapping to 0 |
| Turtles.TurnAdd | scripts/TurtleBuilder.ts:56-69 | two turns that never go below zero add up |
| Turtles.OffCompassStays | scripts/TurtleBuilder.ts:128-135 | a facing that is not 0, 90, 180 or 270 never moves the turtle |
| Turtles.TurnsRestore | scripts/TurtleBuilder.ts:56-69 | from a facing in [0, 360), four right turns, a right then a left turn, or two about-turns all restore it |
| Turtles.NegativeFace | scripts/TurtleBuilder.ts:32-35 | `face(-90)` faces −90, which `_move` does not understand, and one right turn then faces 0 |
| Turtles.LineCells | scripts/TurtleBuilder.ts:37-43 | a wall of n puts its k-th block k cells ahead of the start |
| Turtles.LineDistinct | scripts/TurtleBuilder.ts:37-43 | a wall along a compass facing never puts the same cell twice |
| Turtles.FillColumnCells | scripts/TurtleBuilder.ts:103-106 | a fill column is exactly the depth cells from the current position along +z at column dx |
| Turtles.FillAreaCells | scripts/TurtleBuilder.ts:101-109 | a fill places exactly the cells of the width × depth rectangle from the current position at its height, one block type |
| Turtles.FillAreaSize | scripts/TurtleBuilder.ts:101-109 | a fill of non-negative sides places width × depth blocks |
| Turtles.UpThenDown | scripts/TurtleBuilder.ts:91-99 | `up(n)` then `down(n)` restores the whole state |
| Turtles.StepsAppend | scripts/TurtleBuilder.ts:111-114 | running a then b is running a, then b from where a left off |
| Turtles.StepsSnoc | scripts/TurtleBuilder.ts:111-114 | one more operation is applied to the state the earlier ones reached |
| Turtles.LineBlocks | scripts/TurtleBuilder.ts:37-43 | every block of a wall is of the wall's type |
| Turtles.LineMember | scripts/TurtleBuilder.ts:37-43 | a wall along a compass facing places exactly the n cells it runs along, starting at the current cell |
| Turtles.FillColumnDistinct | scripts/TurtleBuilder.ts:103-106 | a fill column never places the same cell twice |
| Turtles.FillAreaDistinct | scripts/TurtleBuilder.ts:101-109 | a fill never places the same cell twice |
| Turtles.TurtleBuilder.constructor | scripts/TurtleBuilder.ts:17-21 | the builder starts at the given position and facing with nothing placed |
| Turtles.TurtleBuilder.At | scripts/TurtleBuilder.ts:23-25 | a builder at the position, facing 0 |
| Turtles.TurtleBuilder.Face | scripts/TurtleBuilder.ts:32-35 | the facing becomes degrees reduced by JavaScript's `% 360` |
| Turtles.TurtleBuilder.Wall | scripts/TurtleBuilder.ts:37-43 | the loop places length blocks, each at the current cell before stepping forward one, and ends max(length, 0) cells ahead |
| Turtles.TurtleBuilder.Door | scripts/TurtleBuilder.ts:45-49 | one block at the current cell, then one step forward |
| Turtles.TurtleBuilder.Window | scripts/TurtleBuilder.ts:51-54 | one block, GlassPane by default, at the current cell, without moving |
| Turtles.TurtleBuilder.TurnRight | scripts/TurtleBuilder.ts:56-59 | the facing turns by 90 modulo 360 |
| Turtles.TurtleBuilder.TurnLeft | scripts/TurtleBuilder.ts:61-64 | the facing turns by 270 modulo 360 |
| Turtles.TurtleBuilder.TurnAround | scripts/TurtleBuilder.ts:66-69 | the facing turns by 180 modulo 360 |
| Turtles.TurtleBuilder.Forward | scripts/TurtleBuilder.ts:71-74 | the position moves n cells along the facing |
| Turtles.TurtleBuilder.Backward | scripts/TurtleBuilder.ts:76-79 | the position moves n cells along the reversed facing |
| Turtles.TurtleBuilder.Left | scripts/TurtleBuilder.ts:81-84 | the position moves n cells along the facing turned by 270 |
| Turtles.TurtleBuilder.Right | scripts/TurtleBuilder.ts:86-89 | the position moves n cells along the facing turned by 90 |
| Turtles.TurtleBuilder.Up | scripts/TurtleBuilder.ts:91-94 | the height rises by n |
| Turtles.TurtleBuilder.Down | scripts/TurtleBuilder.ts:96-99 | the height drops by n |
| Turtles.TurtleBuilder.Fill | scripts/TurtleBuilder.ts:101-109 | the nested loop places the width × depth rectangle, dx outer and dz inner, without moving the turtle |
| Turtles.TurtleBuilder.FillOneColumn | scripts/TurtleBuilder.ts:103-106 | the inner loop places one column of the rectangle |
| Turtles.TurtleBuilder.Perform | scripts/TurtleBuilder.ts:32-109 | each builder operation does what its value stands for |
| Turtles.TurtleBuilder.Then | scripts/TurtleBuilder.ts:111-114 | `then(fn)` runs the body's operations in order |
| Turtles.TurtleBuilder.Layer | scripts/TurtleBuilder.ts:116-121 | `layer(fn)` is up one, the body, down one |
| TurtleFloors.Floor | scripts/turtle-commands/floor.ts:5-8 | the command is one `fill` on the builder it was given, which it hands back |
| TurtleFloors.FloorEffect | scripts/turtle-commands/floor.ts:5-8 | the floor places width × depth blocks, exactly the rectangle at the current height, and leaves position and facing as they were |
| TurtleRoofs.Roof | scripts/turtle-commands/roof.ts:5-8 | the command is up one, a fill, down one |
| TurtleRoofs.RoofEffect | scripts/turtle-commands/roof.ts:5-8 | the roof fills the rectangle one level above the turtle; position and facing end as they started |
| TinyRooms.TinyRoom | scripts/turtle-commands/tinyRoom.ts:5-14 | the command is four three-block cobblestone walls with a right turn between each, on the builder it hands back |
| TinyRooms.WallTurnStep | scripts/turtle-commands/tinyRoom.ts:6-7 | a wall and a right turn: the wall's blocks are placed, the turtle ends the wall's length ahead facing 90 further round |
| TinyRooms.SquareSplit | scripts/turtle-commands/tinyRoom.ts:6-12 | the square is three wall-and-turns and a last wall |
| TinyRooms.SquareWalls | scripts/turtle-commands/tinyRoom.ts:6-12 | four walls of n place 4·max(n, 0) blocks |
| TinyRooms.SquareUnrolled | scripts/turtle-commands/tinyRoom.ts:6-12 | running the square makes three right turns, appends the four walls' blocks and ends at the square's far corner |
| TinyRooms.SquarePos | scripts/turtle-commands/tinyRoom.ts:6-12 | where the turtle ends after the square |
| TinyRooms.SquareFacing | scripts/turtle-commands/tinyRoom.ts:7-11 | the turtle ends after three right turns |
| TinyRooms.SquarePlaced | scripts/turtle-commands/tinyRoom.ts:6-12 | the square appends the four walls' blocks, in order, to what was placed |
| TinyRooms.SquareMember | scripts/turtle-commands/tinyRoom.ts:6-12 | from a compass facing, the blocks placed are exactly the cells along the four sides of the square |
| TinyRooms.SquareDistinct | scripts/turtle-commands/tinyRoom.ts:6-12 | from a compass facing no cell is placed twice: each wall stops one short of the corner the next starts from |
| TinyRooms.SquareBlocks | scripts/turtle-commands/tinyRoom.ts:6-12 | every block of the four walls is of the walls' type |
| TinyRooms.SquarePuts | scripts/turtle-commands/tinyRoom.ts:6-12 | 4·n blocks of the walls' type are appended after what was already placed |
| TinyRooms.TinyRoomPuts | scripts/turtle-commands/tinyRoom.ts:5-14 | a tiny room appends twelve cobblestone blocks after what was already placed |
| TinyRooms.TinyRoomFacing | scripts/turtle-commands/tinyRoom.ts:7-11 | from a facing in [0, 360) the room ends facing 270 degrees further round |
| TinyRooms.SquareReturns | scripts/turtle-commands/tinyRoom.ts:6-12 | from a compass facing the four walls close the square: the turtle ends on its starting cell |
| TinyRooms.TinyRoomReturns | scripts/turtle-commands/tinyRoom.ts:5-14 | from a compass facing a tiny room ends where it started |
| TurtleDemos.EastSquareRun | scripts/TurtleBuilder.demo.test.ts:36-42 | four walls of length n begun facing +z bring the turtle back to its start, now facing -x, having put the east square's border |
| TurtleDemos.WestSquareRun | scripts/TurtleBuilder.demo.test.ts:8-16 | the tiny room begun facing -x returns to its start facing -z, having put the west square's border |
| TurtleDemos.SouthSquareRun | scripts/TurtleBuilder.demo.test.ts:8-16 | the tiny room begun facing -z returns to its start facing +x, having put the border of the square west and south (-z) of it |
| TurtleDemos.OpenRun | scripts/TurtleBuilder.demo.test.ts:33-35 | facing 0 and filling w x d leaves the turtle in place and appends the fill's cells |
| TurtleDemos.FirstDoorRun | scripts/TurtleBuilder.demo.test.ts:43-44 | forward 3 then a door from facing -x puts one acacia door three cells west and leaves the turtle one cell past it |
| TurtleDemos.SecondDoorRun | scripts/TurtleBuilder.demo.test.ts:46 | right 2 then a door from facing -z puts one birch door two cells west and leaves the turtle one cell south (-z) of it |
| TurtleDemos.RoofLayerRun | scripts/TurtleBuilder.demo.test.ts:22-24 | the roof inside a layer fills the area two levels up and restores position and facing |
| TurtleDemos.FrontRun | scripts/TurtleBuilder.demo.test.ts:35-44 | floor, stone walls and first door together: end cell, facing and the three groups of placements in order |
| TurtleDemos.MiddleRun | scripts/TurtleBuilder.demo.test.ts:45-46 | first tiny room and second door together: end cell, facing and placements in order |
| TurtleDemos.BackRun | scripts/TurtleBuilder.demo.test.ts:47-48 | second tiny room and roof layer together: end cell, facing and placements in order |
| TurtleDemos.DemoRunSized | scripts/TurtleBuilder.demo.test.ts:28-48 | the whole chain, for any start and any sizes, ends one cell south (-z) of the second door facing +x and appends exactly the seven groups of placements in call order |
| TurtleDemos.DemoRun | scripts/TurtleBuilder.demo.test.ts:28-48 | the chain with the test's sizes, from any state: end cell (x-6, y, z-1), facing 90, placements appended in order |
| TurtleDemos.DemoFromNothing | scripts/TurtleBuilder.demo.test.ts:27-48 | from a fresh turtle at o, the placements are exactly what the chain puts from o |
| TurtleDemos.DemoFromNothingSized | scripts/TurtleBuilder.demo.test.ts:27-48 | the same for any sizes |
| TurtleDemos.FillSevenBySeven | scripts/TurtleBuilder.demo.test.ts:19 | a 7 x 7 fill puts the 49 cells column by column |
| TurtleDemos.StoneWallsCells | scripts/TurtleBuilder.demo.test.ts:104-131 | a placement is among the stone walls exactly when it is stone brick on the border of the 8 x 8 square at the start |
| TurtleDemos.StoneAsListed | scripts/TurtleBuilder.demo.test.ts:104-131 | the stone walls put every stone-brick line of the listing exactly once |
| TurtleDemos.FirstRoomCells | scripts/TurtleBuilder.demo.test.ts:134-157 | the first tiny room covers exactly the cobblestone border of the 4 x 4 square whose corner is (x-7, z) |
| TurtleDemos.SecondRoomCells | scripts/TurtleBuilder.demo.test.ts:134-157 | the second tiny room covers exactly the cobblestone border of the 4 x 4 square whose corner is (x-9, z-4) |
| TurtleDemos.RoomsDisjoint | scripts/TurtleBuilder.demo.test.ts:45-47 | no cell of the first tiny room belongs to the second |
| TurtleDemos.RoomsDistinct | scripts/TurtleBuilder.demo.test.ts:45-47 | the two tiny rooms together put no placement twice |
| TurtleDemos.RoomsMember | scripts/TurtleBuilder.demo.test.ts:134-157 | a placement is in one of the two rooms exactly when it is a cobblestone line of the listing |
| TurtleDemos.CobbleAsListed | scripts/TurtleBuilder.demo.test.ts:134-157 | the two rooms put every cobblestone line of the listing exactly once |
| TurtleDemos.OakAsListed | scripts/TurtleBuilder.demo.test.ts:55-103 | the floor puts the oak-plank lines of the listing, counted with multiplicity |
| TurtleDemos.SlabAsListed | scripts/TurtleBuilder.demo.test.ts:158-206 | the roof puts the stone-slab lines of the listing, counted with multiplicity |
| TurtleDemos.DoorsAsListed | scripts/TurtleBuilder.demo.test.ts:132-133 | the two doors are the acacia and birch lines of the listing |
| TurtleDemos.ListingFromOrigin | scripts/TurtleBuilder.demo.test.ts:55-206 | the listing written relative to a start cell is, at (0, 64, 0), the test's literal listing |
| TurtleDemos.PlacedAsListed | scripts/TurtleBuilder.demo.test.ts:208-212 | from any start, what the demo puts and the listing are equal as multisets, which is what comparing the sorted line lists checks |
| TurtleDemos.DemoMatchesListing | scripts/TurtleBuilder.demo.test.ts:26-212 | from (0, 64, 0) with nothing placed, the turtle ends at (-6, 64, -1) facing 90 and its placements, as a multiset, are the expected listing |
| TurtleDemos.RunDemo | scripts/TurtleBuilder.demo.test.ts:27-48 | running the test body on a builder object leaves it at (x-6, y, z-1) facing 90 with the demo's placements, whose multiset is the listing |
| AIHouseBuilders.RoomErrors | scripts/ai/AIHouseBuilder.ts:187-196 | a room adds no error exactly when all three sizes are at least 3 and its rotation is a quarter turn, and at most two errors |
| AIHouseBuilders.CheckRoom | scripts/ai/AIHouseBuilder.ts:188-195 | the errors pushed for one room are the dimensions error then the rotation error, each when its test fails |
| AIHouseBuilders.ValidateConfig | scripts/ai/AIHouseBuilder.ts:176-202 | the error list is the house errors followed by each room's errors in index order, and valid holds exactly when that list is empty |
| AIHouseBuilders.SpanEmptyIff | scripts/ai/AIHouseBuilder.ts:187-196 | the per-room loop pushes nothing exactly when no room pushes anything |
| AIHouseBuilders.ValidExactly | scripts/ai/AIHouseBuilder.ts:176-202 | a configuration validates exactly when it has a non-empty name, at least one room, and every room is at least 3 in each size with a quarter-turn rotation |
| AIHouseBuilders.RoomErrorsInPlace | scripts/ai/AIHouseBuilder.ts:179-196 | room i's errors come after the house errors and every earlier room's, and before every later room's |
| AIHouseBuilders.AdjacentSymmetric | scripts/ai/AIHouseBuilder.ts:161-171 | adjacency does not depend on argument order and requires heights less than 2 apart |
| AIHouseBuilders.AdjacentAlongX | scripts/ai/AIHouseBuilder.ts:166-170 | a room one width further along x at the same height is adjacent whatever its z |
| AIHouseBuilders.FirstDoor | scripts/ai/AIHouseBuilder.ts:140-141 | a first door exists exactly when the room has a non-empty door list |
| AIHouseBuilders.InferRoomConnections | scripts/ai/AIHouseBuilder.ts:130-156 | the double loop returns the connections of every pair i < j, in loop order |
| AIHouseBuilders.PairsFromMember | scripts/ai/AIHouseBuilder.ts:134-152 | the inner loop for room i yields exactly one connection to each later room it is adjacent to when both have a door |
| AIHouseBuilders.ConnectionsMember | scripts/ai/AIHouseBuilder.ts:130-156 | a connection is returned exactly for each pair i < j of adjacent rooms that both have doors, carrying room i's first door material and both labels |
| AIHouseBuilders.ConnectionsDistinct | scripts/ai/AIHouseBuilder.ts:130-156 | no pair is connected twice |
| JsonHouse.ParseBlockType | scripts/config/JsonHouseBuilder.ts:176-183 | a name resolves exactly when the block-type table has it, to that entry; otherwise the unknown-block-type error names it |
| JsonHouse.ParseDoorType | scripts/config/JsonHouseBuilder.ts:188-195 | door names resolve in the same block-type table and to the same value; only the error message differs |
| JsonHouse.RoofStyle | scripts/config/JsonHouseBuilder.ts:98 | the style is the configured one when it is a non-empty string, and "flat" otherwise; never empty |
| JsonHouse.WindowOptionsFor | scripts/config/JsonHouseBuilder.ts:131-151 | the size is set exactly when width and height are both truthy, the block type exactly when a material name is given, and an unknown material is refused |
| JsonHouse.EachSnoc | scripts/config/JsonHouseBuilder.ts:62-87 | one more accepted item of a list appends its parts after the earlier items' parts |
| JsonHouse.EachStops | scripts/config/JsonHouseBuilder.ts:62-87 | once an item of a list throws, later items are never processed |
| JsonHouse.EachFailsAt | scripts/config/JsonHouseBuilder.ts:62-87 | the first refused item's error is the error of the whole list |
| JsonHouse.RoomPartsUnrolled | scripts/config/JsonHouseBuilder.ts:55-100 | a room's parts are the seven kinds chained in the order floor, walls, windows, doors, stairs, ceiling, roof |
| JsonHouse.ChainAfterNothing | scripts/config/JsonHouseBuilder.ts:55-59 | chaining after a step that added nothing is the later step alone |
| JsonHouse.PartsInOrder | scripts/config/JsonHouseBuilder.ts:55-100 | when a room's parts are accepted, every kind was accepted and the children are their parts concatenated in the fixed order |
| JsonHouse.ObjectPut | scripts/config/JsonHouseBuilder.ts:200-211 | an object is written with its position as both the local point and the anchor |
| JsonHouse.ObjectAtTwicePosition | scripts/config/JsonHouseBuilder.ts:200-211 | at rotation 0 an object lands at twice its configured position, because putOffset adds the anchor to the point |
| JsonHouse.ObjectRefused | scripts/config/JsonHouseBuilder.ts:200-211 | an unknown object type or a rotation that is not a quarter turn throws and leaves the buffer untouched |
| JsonHouse.HouseRunAppend | scripts/config/JsonHouseBuilder.ts:33-35 | rooms are built in order: building a then b is building a, then, if that did not throw, building b on the result |
| JsonHouse.OneRoom | scripts/config/JsonHouseBuilder.ts:33-35 | a one-room house is that room's build |
| JsonHouse.LastPutOnCellWins | scripts/config/JsonHouseBuilder.ts:102-112 | a cell holds the block of the last call that reaches it |
| JsonHouse.RoomBlocksWin | scripts/config/JsonHouseBuilder.ts:102-112 | objects are written before the room is built, so a room block on an object's cell overwrites the object |
| JsonHouse.BareRoomWritesNothing | scripts/config/JsonHouseBuilder.ts:43-113 | a valid room with nothing configured leaves the buffer as it was and does not throw |
| JsonHouse.UnknownFloorMaterial | scripts/config/JsonHouseBuilder.ts:56-58 | an unknown floor material stops the room before anything is written |
| JsonHouse.OffsetRunMatches | scripts/config/JsonHouseBuilder.ts:110-112 | making the room's calls one by one against the live buffer gives the same state and exception as delivering them and then writing those delivered |
| JsonHouse.PlaceObjectsStops | scripts/config/JsonHouseBuilder.ts:103-107 | once an object throws, later objects are not placed |
| JsonHouse.JsonHouseBuilder.constructor | scripts/config/JsonHouseBuilder.ts:15-17 | the builder starts with a fresh empty buffer |
| JsonHouse.JsonHouseBuilder.Build | scripts/config/JsonHouseBuilder.ts:24-38 | a new buffer holds every room in order up to the first exception, which is passed on; otherwise the buffer is returned |
| JsonHouse.JsonHouseBuilder.BuildRoom | scripts/config/JsonHouseBuilder.ts:43-113 | one room: construct it, append its parts, place its objects, then build it through putOffset, stopping at the first exception |
| JsonHouse.JsonHouseBuilder.AddParts | scripts/config/JsonHouseBuilder.ts:55-100 | the room's children grow by exactly the configured parts in the fixed order, or the first refusal is reported |
| JsonHouse.JsonHouseBuilder.AddPartsOf | scripts/config/JsonHouseBuilder.ts:55-100 | the step for one kind of part appends that kind's parts or reports its refusal |
| JsonHouse.JsonHouseBuilder.AddWalls | scripts/config/JsonHouseBuilder.ts:62-66 | each configured wall, in order, appends its wall stacks, defaulting the start height to 1 and the wall height to the room's |
| JsonHouse.JsonHouseBuilder.AddWindows | scripts/config/JsonHouseBuilder.ts:69-73 | each configured window, in order, appends one window with the options built from its configuration |
| JsonHouse.JsonHouseBuilder.AddDoors | scripts/config/JsonHouseBuilder.ts:76-80 | each configured door, in order, appends one door of the parsed material |
| JsonHouse.JsonHouseBuilder.AddStairsList | scripts/config/JsonHouseBuilder.ts:83-87 | each configured flight, in order, appends one staircase at its corner |
| JsonHouse.JsonHouseBuilder.PlaceAll | scripts/config/JsonHouseBuilder.ts:103-107 | the objects are written straight into the buffer in order, up to the first exception |
| JsonHouse.JsonHouseBuilder.Write | scripts/config/JsonHouseBuilder.ts:110-112 | the buffer becomes the old buffer with the calls applied in order |
| Spheres.CellMember | scripts/geometry/surfaces/sphere.ts:37-48 | the innermost body collects the point at offset (x, y, z) exactly when its squared distance lies between (r-1)^2 and (r+1)^2 |
| Spheres.RowMember | scripts/geometry/surfaces/sphere.ts:35-49 | the z loop collects exactly the shell points with the given x and y offsets and z offset in [-r, r] |
| Spheres.PlaneMember | scripts/geometry/surfaces/sphere.ts:34-50 | the y loop collects exactly the shell points with the given x offset inside the bounding cube |
| Spheres.ShellMember | scripts/geometry/surfaces/sphere.ts:33-51 | a frame holds exactly the points of the bounding cube whose offset from the centre is within one block of the surface |
| Spheres.ShellDistinct | scripts/geometry/surfaces/sphere.ts:33-51 | no point appears twice in a frame |
| Spheres.CellIs | scripts/geometry/surfaces/sphere.ts:24-25 | the test against the two precomputed squared bounds is the shell test |
| Spheres.LoopDone | scripts/geometry/surfaces/sphere.ts:33 | a finished loop from -r covers [-r, r], and nothing when r is negative |
| Spheres.WriteAll | scripts/geometry/surfaces/sphere.ts:28-30 | one put per point, the k-th at the k-th point with that point's block |
| Spheres.WriteAllSnoc | scripts/geometry/surfaces/sphere.ts:44 | one more point adds one put at the end |
| Spheres.WriteAllJoin | scripts/geometry/surfaces/sphere.ts:33-51 | putting two lists in turn puts their concatenation |
| Spheres.ShellRowWrites | scripts/geometry/surfaces/sphere.ts:35-49 | the z loop collects the row's shell points in order and puts the formula's block on each |
| Spheres.ShellPlaneWrites | scripts/geometry/surfaces/sphere.ts:34-50 | the y loop collects the plane's shell points in order and puts the formula's block on each |
| Spheres.ShellWrites | scripts/geometry/surfaces/sphere.ts:33-51 | the three loops collect the frame's points, x outermost, and put the formula's block at the tick on each |
| Spheres.ClearWrites | scripts/geometry/surfaces/sphere.ts:28-30 | every remembered point gets Air, in order |
| Spheres.SphereDrawer.constructor | scripts/geometry/surfaces/sphere.ts:6 | the remembered list starts empty |
| Spheres.SphereDrawer.DrawSphere | scripts/geometry/surfaces/sphere.ts:16-55 | Air over the previous frame, then the new frame with the formula's blocks; the new frame's points are remembered |
| Spheres.FirstFrame | scripts/geometry/surfaces/sphere.ts:6-55 | the first frame writes no Air, only the shell |
| Spheres.FrameWrites | scripts/geometry/surfaces/sphere.ts:33-51 | a frame puts one block per shell point, each point once, with the formula's block at the tick |
| VisualizerLines.Direction | scripts/visualization/HouseVisualizer.ts:278-280 | the step on an axis is +1 or -1 |
| VisualizerLines.TimesIsProduct | scripts/visualization/HouseVisualizer.ts:293-299 | repeated addition is the product the loop computes |
| VisualizerLines.TimesDifference | scripts/visualization/HouseVisualizer.ts:297-299 | products distribute over a difference |
| VisualizerLines.TimesAtLeast | scripts/visualization/HouseVisualizer.ts:297-299 | a positive factor makes the product at least the other factor |
| VisualizerLines.TimesNext | scripts/visualization/HouseVisualizer.ts:297-299 | one more in a factor adds the other factor |
| VisualizerLines.AxisNext | scripts/visualization/HouseVisualizer.ts:292-300 | the loop body's test on an axis with the products as written decides its next value |
| VisualizerLines.CallAt | scripts/visualization/HouseVisualizer.ts:285-290 | iteration i's putOffset is at the orientation's point plus the loop variables |
| VisualizerLines.StepAxis | scripts/visualization/HouseVisualizer.ts:297-299 | one axis steps by its direction exactly when its test passes |
| VisualizerLines.DrawLine | scripts/visualization/HouseVisualizer.ts:275-301 | the calls made are the dm + 1 putOffset calls of the loop, in iteration order |
| VisualizerLines.LineCallsAt | scripts/visualization/HouseVisualizer.ts:284-290 | call k of a line is at the orientation's point plus the loop variables of iteration k |
| VisualizerLines.LineShape | scripts/visualization/HouseVisualizer.ts:281-290 | a line has dm + 1 calls with the given orientation and material, the first at the orientation's point plus the start |
| VisualizerLines.AxisStep | scripts/visualization/HouseVisualizer.ts:297-299 | each axis moves by nothing or one step in its direction per iteration |
| VisualizerLines.LineSteps | scripts/visualization/HouseVisualizer.ts:292-300 | consecutive calls differ by at most one block on each axis |
| VisualizerLines.CorrectedProgress | scripts/visualization/HouseVisualizer.ts:292-300 | with the strict test an axis has moved i * d / dm rounded up after i iterations, toward its end |
| VisualizerLines.PinnedMultiple | scripts/visualization/HouseVisualizer.ts:297-299 | a multiple of dm between dm * d and dm * d + dm is dm * d |
| VisualizerLines.CorrectedAxisEnd | scripts/visualization/HouseVisualizer.ts:292-300 | with the strict test every axis ends exactly at its end value after dm iterations |
| VisualizerLines.CorrectedLineEnds | scripts/visualization/HouseVisualizer.ts:275-301 | the corrected line's last call is at the orientation's point plus the requested end |
| VisualizerLines.AsWrittenFlatAxisDrifts | scripts/visualization/HouseVisualizer.ts:297-299 | as written, an axis with no extent steps by -1 on the first iteration of any line longer than one block |
| VisualizerLines.AsWrittenMissesEnd | scripts/visualization/HouseVisualizer.ts:275-301 | as written, the line from (0,0,0) to (2,0,0) ends at (2,-1,-1) |
| VisualizerLines.AsWrittenAxes | scripts/visualization/HouseVisualizer.ts:297-299 | on that line x reaches 2 while y and z drift to -1 |
| VisualizerLines.AsWrittenThirdCall | scripts/visualization/HouseVisualizer.ts:275-301 | as written, the third block of any line from (0,0,0) to (2,0,0) is at the line's origin plus (2,-1,-1) |
| VisualizerLines.ThreeBlockLine | scripts/visualization/HouseVisualizer.ts:292-300 | the third block of the line from (0,0,0) to (2,0,0) is offset (2,-1,-1) with the test as written and (2,0,0) with the strict one |
| HouseVisualizers.Edges | scripts/visualization/HouseVisualizer.ts:103-118 | twelve edges, each joining two corners of the room's wireframe and running along one axis |
| HouseVisualizers.EdgesReachCorners | scripts/visualization/HouseVisualizer.ts:103-118 | every one of the eight corners ends some edge |
| HouseVisualizers.MarkerOnWall | scripts/visualization/HouseVisualizer.ts:316-337 | a door or window marker lies in the plane of its side's wall, offset blocks along it, at the height asked for |
| HouseVisualizers.DoorMarker | scripts/visualization/HouseVisualizer.ts:307-340 | a door marker is two iron blocks in the room's frame, the second one block above the first, the first at height 1 on the door's wall |
| HouseVisualizers.WindowMarker | scripts/visualization/HouseVisualizer.ts:345-378 | a window marker is one light blue glass block in the room's frame on the window's wall at its height |
| HouseVisualizers.MarkerCounts | scripts/visualization/HouseVisualizer.ts:120-131 | door markers are two blocks per listed door and window markers one per listed window; none when the list is absent |
| HouseVisualizers.WireframeStart | scripts/visualization/HouseVisualizer.ts:96-103 | for either test, the first wireframe block is the room's position given as a local point, so under rotation 0 it lands at twice the position |
| HouseVisualizers.WireframeFrontEdge | scripts/visualization/HouseVisualizer.ts:101-118 | in a 3-wide room's wireframe the front bottom edge's third block is at the room's anchor plus (2,-1,-1) as written, and plus (2,0,0), the edge's end, with the strict test |
| HouseVisualizers.WireframeThirdBlock | scripts/visualization/HouseVisualizer.ts:101-118 | the third wireframe block of a 3-wide room is the front bottom edge's third block, for either test |
| HouseVisualizers.FrontEdge | scripts/visualization/HouseVisualizer.ts:103 | the first edge runs along x from the origin to width − 1 |
| HouseVisualizers.PositionTwice | scripts/visualization/HouseVisualizer.ts:96-99 | the room's position in its own unturned frame lands at twice the position |
| HouseVisualizers.EdgesStart | scripts/visualization/HouseVisualizer.ts:103 | for either test, the edges begin at the front bottom edge's first block |
| HouseVisualizers.HolographicCount | scripts/visualization/HouseVisualizer.ts:166-188 | a holographic room is two blocks per cell of its three grids |
| HouseVisualizers.HolographicShell | scripts/visualization/HouseVisualizer.ts:157-188 | every holographic block is in the room's frame and inside its box, in the room's colour or clear glass |
| HouseVisualizers.ColoursDistinct | scripts/visualization/HouseVisualizer.ts:139-146 | no colour repeats within the six glass colours or within the eight wool colours |
| HouseVisualizers.CornerMarker | scripts/visualization/HouseVisualizer.ts:243-263 | a corner marker is eight blocks |
| HouseVisualizers.CornerMarkerUniform | scripts/visualization/HouseVisualizer.ts:243-263 | a corner marker is all of one material in one frame |
| HouseVisualizers.CornerMarkerCells | scripts/visualization/HouseVisualizer.ts:251-259 | the eight blocks of a corner marker go to eight different cells |
| HouseVisualizers.CubeAt | scripts/visualization/HouseVisualizer.ts:251-259 | loop iteration (dx, dy, dz) emits block 4dx + 2dy + dz of the cube |
| HouseVisualizers.UniformFour | scripts/visualization/HouseVisualizer.ts:234-237 | four uniform cubes make 32 uniform blocks |
| HouseVisualizers.RoomBoundsBlocks | scripts/visualization/HouseVisualizer.ts:226-238 | a room's bounds are 32 blocks of its colour in its frame |
| HouseVisualizers.RoomCenter | scripts/visualization/HouseVisualizer.ts:416-422 | the centre is the position plus half of each extent rounded down |
| HouseVisualizers.CenterInside | scripts/visualization/HouseVisualizer.ts:416-422 | the centre of a room at least one block wide and deep lies inside it |
| HouseVisualizers.ConnectionLineStarts | scripts/visualization/HouseVisualizer.ts:399-411 | for either test a connection is a gold line in the unturned frame at the origin, Steps + 1 blocks long, starting on the first room's centre |
| HouseVisualizers.ConnectionLineEnds | scripts/visualization/HouseVisualizer.ts:399-411 | with the strict test a connection's line ends on the second room's centre |
| HouseVisualizers.ConnectionAsWrittenMisses | scripts/visualization/HouseVisualizer.ts:399-411 | as written, a connection from a room centred on (0,0,0) to one centred on (2,0,0) ends at (2,-1,-1), not on the second centre |
| HouseVisualizers.ConnectionCallIs | scripts/visualization/HouseVisualizer.ts:386-411 | a connection between two rooms the house has is the line between their centres |
| HouseVisualizers.ConnectionSkipped | scripts/visualization/HouseVisualizer.ts:390 | for either test, a connection naming a missing room draws nothing |
| HouseVisualizers.BoundsColour | scripts/visualization/HouseVisualizer.ts:217-220 | room i's bounds are wool colour i mod 8 |
| HouseVisualizers.HolographicColour | scripts/visualization/HouseVisualizer.ts:148-151 | room i's shell is glass colour i mod 6, with clear glass floor and ceiling |
| HouseVisualizers.LineFrames | scripts/visualization/HouseVisualizer.ts:284-290 | for either test, every call of a line uses the line's frame |
| HouseVisualizers.FramesThree | scripts/visualization/HouseVisualizer.ts:101-131 | joining call lists keeps every frame valid |
| HouseVisualizers.EdgeFrames | scripts/visualization/HouseVisualizer.ts:103-118 | for either test, the edges of a room with a quarter-turn rotation use only valid frames |
| HouseVisualizers.MarkerFrames | scripts/visualization/HouseVisualizer.ts:120-131 | its markers use only valid frames |
| HouseVisualizers.WireframeFrames | scripts/visualization/HouseVisualizer.ts:89-132 | for either test, its whole wireframe uses only valid frames |
| HouseVisualizers.ConnectionFrames | scripts/visualization/HouseVisualizer.ts:383-411 | for either test, connection lines use the unturned frame at the origin |
| HouseVisualizers.ModeFrames | scripts/visualization/HouseVisualizer.ts:49-68 | for either test, when every room's rotation is a quarter turn, every call of every mode has a valid frame |
| HouseVisualizers.VisualizeSucceeds | scripts/visualization/HouseVisualizer.ts:49-68 | for either test, such a house is previewed without an exception, every call applied in order |
| HouseVisualizers.RunRow | scripts/visualization/HouseVisualizer.ts:167-170 | an inner renderer loop emits its cells in order |
| HouseVisualizers.RunGrid | scripts/visualization/HouseVisualizer.ts:166-171 | a renderer's double loop emits its rows in order |
| HouseVisualizers.DrawEdges | scripts/visualization/HouseVisualizer.ts:103-118 | the edges are drawn one line each, in order, each by the line loop with the given test |
| HouseVisualizers.MarkDoors | scripts/visualization/HouseVisualizer.ts:121-125 | one marker per listed door, in order |
| HouseVisualizers.MarkWindows | scripts/visualization/HouseVisualizer.ts:127-131 | one marker per listed window, in order |
| HouseVisualizers.RenderRoomWireframe | scripts/visualization/HouseVisualizer.ts:89-132 | edges, then door markers, then window markers, the edges drawn with the given test |
| HouseVisualizers.RenderRoomHolographic | scripts/visualization/HouseVisualizer.ts:157-189 | front and back walls, side walls, then floor and ceiling |
| HouseVisualizers.DrawCornerMarker | scripts/visualization/HouseVisualizer.ts:243-263 | the three loops emit the cube's eight blocks in order |
| HouseVisualizers.RenderRoomBounds | scripts/visualization/HouseVisualizer.ts:226-238 | four corner cubes, the far ones two blocks in from the width and the depth |
| HouseVisualizers.RenderConnections | scripts/visualization/HouseVisualizer.ts:383-394 | one line per connection whose rooms both exist, in order, drawn with the given test |
| HouseVisualizers.RenderWireframeRooms | scripts/visualization/HouseVisualizer.ts:73-78 | each room's wireframe in order, drawn with the given test |
| HouseVisualizers.RenderHolographicRooms | scripts/visualization/HouseVisualizer.ts:137-152 | each room's shell in order, in its glass colour |
| HouseVisualizers.RenderBoundsRooms | scripts/visualization/HouseVisualizer.ts:205-221 | each room's bounds in order, in its wool colour |
| HouseVisualizers.RenderMode | scripts/visualization/HouseVisualizer.ts:52-65 | only the selected mode's renderer runs, connection lines only in wireframe mode when asked for; lines use the given test |
| HouseVisualizers.PutAll | scripts/visualization/HouseVisualizer.ts:49-68 | the calls are applied to the buffer in order until the first exception |
| HouseVisualizers.Visualize | scripts/visualization/HouseVisualizer.ts:49-68 | a fresh buffer holds the selected mode's blocks, or the first call's exception is returned; with `AsWritten` this is the program's preview, with `Corrected` the repaired one |
| HouseVisualizers.CalculateBoundingBox | scripts/visualization/HouseVisualizer.ts:473-508 | zeros for a house without rooms; otherwise the least near face and greatest far face over the rooms on each axis, and their differences |

## Left out

- The live game and file back ends are left out: MinecraftBlockIO, MinecraftBlockRegistry, McFunctionIO, the text and turtle IO adapters and main.ts. They are I/O against an external API. A block sink is modelled as the list of `put` calls it receives.
- The language-model front end is left out: the chat client, `generateHouseConfig`, `buildFromPrompt`, the system prompt, the JSON extraction and the UI. They are network calls and asynchronous. Only `validateConfig`, `areRoomsAdjacent` and `inferRoomConnections` are modelled.
- `JSON.parse` in `JsonHouseBuilder.fromJson` is left out. `fromConfig` is the constructor followed by `Build`. `getBlockBuffer` is the `blockBuffer` field itself.
- The block-type enumeration and the `Block` class are not part of this model beyond the names the modelled code uses. The other members are `Blocks.Other(name)`. A JSON name resolves through a name table given as a parameter (`JsonHouse.Names`).
- `Point.packedKey` and `Point.fromPackedKey` are taken as a one-to-one encoding. The buffer is keyed by the point itself. Cells whose packed keys would collide are therefore kept apart here.
- Floating point is left out:
  - `waveFormula` / `selectByWave` (sine) and the radial selectors (square root) are not modelled.
  - The wave selector of scripts/textures/ColorBlockSelector.ts is modelled, since it only uses the integer index.
  - The two `Math.random()` draws of the sparkle formulas are parameters in [0, 1).
- Spheres.SphereDrawer.DrawSphere: the radius, the centre and the tick are integers. A fractional radius is not modelled.
- PrefabFactory.CreateFloor, PrefabFactory.CreateWindow, PrefabFactory.CreateDoor, PrefabFactory.CreateRoof and PrefabFactory.CreateStairs have no counterpart in the source. Its factory interface and both factory classes (scripts/prefabs/PrefabFactory.ts, scripts/prefabs/DefaultPrefabFactory.ts) define only `createWall`. So the calls at scripts/prefabs/Room.ts:72, 145, 173, 193 and 221 throw a TypeError at run time, and so does any JSON house that adds a floor, window, door, roof or stairs to a room. The model assumes instead that each creator is the constructor of the prefab it names. The window and door calls pass `offsetAlong` as well; the model gives it no effect, because Windows.Window and Doors.Door have no such field, and what a missing creator would do with it cannot be read from the source. Rooms.AddFloor, Rooms.AddCeiling, Rooms.AddWindow, Rooms.BuildDoor, Rooms.AddRoof, Rooms.AddStairs and the JSON builder's room steps follow this assumption, not the TypeError.
- `Object.assign` onto the shared factory (scripts/prefabs/DefaultPrefabFactory.ts) is runtime patching and is left out. The single shared `defaultPrefabFactory` is the stateless `PrefabFactory` module.
- In the turtle builder, `registerTurtleCommand` and its command registry are left out, because they patch the prototype at run time. The three registered commands are modelled as functions of the turtle state. The `using` and `save` passthroughs and the unused `_chain` promise are left out, because the sink is the placement list.
- `console.log` calls are left out: in `putOffset`, in `JsonHouseBuilder.build` and in the turtle demo.
- `generateASCIIVisualization` is left out, since it only formats text. The `Dimension` field and the unused visualizer options are left out too.
- The legacy duplicates under scripts/ are not part of this model: BlockBuffer.ts, Anchor.ts, HouseBuilder.ts, TestIO.ts and buildSmallHouse.ts. They rely on APIs that the repository does not define. Only scripts/Prefab.ts's `render` is modelled.
- Window occupancy tracking across prefabs is not part of this model. No anchor or room keeps an occupied set. `Window.draw`'s own check, which probes the callback and catches a throw, is modelled.
- AIHouseBuilders.ValidateConfig: `config.rooms` is always a list here. The source also accepts a missing `rooms`, in which case its `forEach` would throw.
- HouseVisualizers.CalculateBoundingBox starts its running minima and maxima from the first room rather than from ±Infinity. With at least one room the results are the same.
- `Prefab.addWall` always builds at the prefab's own orientation and ignores its rotation argument, so chained walls do not follow one another (`Anchors.WallsDoNotChain`).
- Every JavaScript number in the modelled code is a Dafny `int`. Fractional sizes, offsets and positions, NaN and Infinity are not modelled. For example, a width of 2.5 makes the source's `x < width` loops run three times and `Math.floor(width / 2)` give 1, which no integer input reproduces.

## Findings

| source | as written | input that shows it | evidently intended | confidence | as-written member | corrected member |
|---|---|---|---|---|---|---|
| scripts/visualization/HouseVisualizer.ts:297-299 | each axis steps when `(i + 1) * d >= dm * abs(pos - start)`, so an axis with no extent steps by -1 on the first iteration, and an axis shorter than the longest overshoots | the front bottom edge of a 3-wide room, (0,0,0) to (2,0,0), ends at (2,-1,-1) | step only when the scaled error strictly exceeds the distance covered (`>`), so every axis ends exactly at its end value | not executed | VisualizerLines.AsWrittenMissesEnd | VisualizerLines.CorrectedLineEnds |
