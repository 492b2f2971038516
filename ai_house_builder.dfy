// The configuration checks of the AI house builder
// (scripts/ai/AIHouseBuilder.ts): `validateConfig`, `areRoomsAdjacent` and
// `inferRoomConnections`. The language-model calls around them are not part
// of this model.
module AIHouseBuilders {
  import opened Errors
  import opened JsMath
  import opened Geometry
  import opened Spans
  import opened HouseConfigs

  /** `!s` on an optional string: absent or empty. */
  predicate Falsy(s: Option<string>)
  {
    s.None? || s.value == ""
  }

  const NameMissing := "House must have a name"
  const NoRooms := "House must have at least one room"

  function DimensionsError(index: nat): string
  {
    "Room " + NatToString(index) + ": Dimensions must be at least 3 blocks"
  }

  function RotationError(index: nat, rotation: int): string
  {
    "Room " + NatToString(index) + ": Invalid rotation " + IntToString(rotation)
  }

  /** What room `index` adds to the error list: a dimensions error when
      any of its sizes is below 3, then a rotation error when its rotation
      is not a quarter turn. */
  function RoomErrors(index: nat, room: RoomConfig): (e: seq<string>)
    ensures e == [] <==> room.width >= 3 && room.depth >= 3 && room.height >= 3 && ValidRotation(room.rotation)
    ensures |e| <= 2
  {
    (if room.width < 3 || room.depth < 3 || room.height < 3 then [DimensionsError(index)] else [])
    + (if !ValidRotation(room.rotation) then [RotationError(index, room.rotation)] else [])
  }

  /** The body of the `forEach` over the rooms, by index. */
  function RoomErrorsAt(rooms: seq<RoomConfig>): int -> seq<string>
  {
    i => if 0 <= i < |rooms| then RoomErrors(i, rooms[i]) else []
  }

  /** The error list `validateConfig` builds, in the order it pushes. */
  function ConfigErrors(config: HouseConfig): seq<string>
  {
    HouseErrors(config) + Span(0, |config.rooms|, RoomErrorsAt(config.rooms))
  }

  /** The house-level errors, pushed before any room's. */
  function HouseErrors(config: HouseConfig): seq<string>
  {
    (if Falsy(config.name) then [NameMissing] else [])
    + (if |config.rooms| == 0 then [NoRooms] else [])
  }

  /** A room the validator accepts. */
  predicate RoomAcceptable(room: RoomConfig)
  {
    room.width >= 3 && room.depth >= 3 && room.height >= 3 && ValidRotation(room.rotation)
  }

  datatype Validation = Validation(valid: bool, errors: seq<string>)

  /** `validateConfig(config)`. */
  method ValidateConfig(config: HouseConfig) returns (r: Validation)
    ensures r.errors == ConfigErrors(config)
    ensures r.valid <==> r.errors == []
  {
    var errors: seq<string> := [];
    if Falsy(config.name) {
      errors := errors + [NameMissing];
    }
    if |config.rooms| == 0 {
      errors := errors + [NoRooms];
    }
    assert errors == HouseErrors(config);
    var index := 0;
    while index < |config.rooms|
      invariant 0 <= index <= |config.rooms|
      invariant errors == HouseErrors(config) + Span(0, index, RoomErrorsAt(config.rooms))
    {
      SpanSnoc(HouseErrors(config), 0, index, RoomErrorsAt(config.rooms));
      var roomErrors := CheckRoom(index, config.rooms[index]);
      errors := errors + roomErrors;
      index := index + 1;
    }
    r := Validation(|errors| == 0, errors);
  }

  /** The body of the `forEach`: the errors room `index` pushes. */
  method CheckRoom(index: nat, room: RoomConfig) returns (errors: seq<string>)
    ensures errors == RoomErrors(index, room)
  {
    errors := [];
    if room.width < 3 || room.depth < 3 || room.height < 3 {
      errors := errors + [DimensionsError(index)];
    }
    if !ValidRotation(room.rotation) {
      errors := errors + [RotationError(index, room.rotation)];
    }
  }

  /** A counted loop produces nothing exactly when no iteration does. */
  lemma SpanEmptyIff<T>(lo: int, hi: int, f: int -> seq<T>)
    ensures Span(lo, hi, f) == [] <==> forall i :: lo <= i < hi ==> f(i) == []
  {
    if forall i :: lo <= i < hi ==> f(i) == [] {
      SpanEmpty(lo, hi, f);
    } else {
      var i :| lo <= i < hi && f(i) != [];
      SpanMember(lo, hi, f, f(i)[0]);
    }
  }

  /** A configuration is valid exactly when it has a name, at least one
      room, and every room is at least 3 blocks in each dimension with a
      quarter-turn rotation. */
  lemma ValidExactly(config: HouseConfig)
    ensures ConfigErrors(config) == [] <==>
      !Falsy(config.name) && |config.rooms| > 0 &&
      forall i :: 0 <= i < |config.rooms| ==> RoomAcceptable(config.rooms[i])
  {
    SpanEmptyIff(0, |config.rooms|, RoomErrorsAt(config.rooms));
    assert forall i :: 0 <= i < |config.rooms| ==>
      (RoomErrorsAt(config.rooms)(i) == [] <==> RoomAcceptable(config.rooms[i]));
  }

  /** Room i's errors sit after the house-level errors and the errors of
      every earlier room, and before those of every later room. */
  lemma RoomErrorsInPlace(config: HouseConfig, i: nat)
    requires i < |config.rooms|
    ensures ConfigErrors(config) ==
      (if Falsy(config.name) then [NameMissing] else []) + (if |config.rooms| == 0 then [NoRooms] else []) +
      (Span(0, i, RoomErrorsAt(config.rooms)) + RoomErrors(i, config.rooms[i]) +
       Span(i + 1, |config.rooms|, RoomErrorsAt(config.rooms)))
  {
    SpanSplit(0, i, |config.rooms|, RoomErrorsAt(config.rooms));
    SpanSplit(i, i + 1, |config.rooms|, RoomErrorsAt(config.rooms));
    assert Span(i, i + 1, RoomErrorsAt(config.rooms)) == RoomErrorsAt(config.rooms)(i);
  }

  /** `areRoomsAdjacent(room1, room2)`: their heights differ by less than 2,
      and the x gap equals either room's width or the z gap either room's
      depth. */
  predicate AreRoomsAdjacent(room1: RoomConfig, room2: RoomConfig)
  {
    var dx := Abs(room1.position.x - room2.position.x);
    var dz := Abs(room1.position.z - room2.position.z);
    var xAdjacent := dx == room1.width || dx == room2.width;
    var zAdjacent := dz == room1.depth || dz == room2.depth;
    var sameY := Abs(room1.position.y - room2.position.y) < 2;
    sameY && (xAdjacent || zAdjacent)
  }

  /** Adjacency does not depend on the order of the two rooms, and needs
      heights less than 2 apart. */
  lemma AdjacentSymmetric(room1: RoomConfig, room2: RoomConfig)
    ensures AreRoomsAdjacent(room1, room2) <==> AreRoomsAdjacent(room2, room1)
    ensures AreRoomsAdjacent(room1, room2) ==> -2 < room1.position.y - room2.position.y < 2
  {
  }

  /** A room placed exactly one width further along x at the same height is
      adjacent; so is one whose x gap matches a width however far away it
      lies along z, since the test never compares the other axis. */
  lemma AdjacentAlongX(room1: RoomConfig, room2: RoomConfig)
    requires room1.width >= 0 && room2.position.y == room1.position.y
    requires room2.position.x == room1.position.x + room1.width
    ensures AreRoomsAdjacent(room1, room2)
  {
  }

  /** `room.doors?.[0]`. */
  function FirstDoor(room: RoomConfig): (d: Option<DoorConfig>)
    ensures d.Some? <==> room.doors.Some? && |room.doors.value| > 0
  {
    if room.doors.Some? && |room.doors.value| > 0 then Some(room.doors.value[0]) else None
  }

  /** `room.name || 'Room ' + index`. */
  function RoomLabel(room: RoomConfig, index: nat): string
  {
    if Falsy(room.name) then "Room " + NatToString(index) else room.name.value
  }

  /** Rooms i and j get a connection: adjacent, and each has a first door. */
  predicate Connects(rooms: seq<RoomConfig>, i: nat, j: nat)
    requires i < |rooms| && j < |rooms|
  {
    AreRoomsAdjacent(rooms[i], rooms[j]) && FirstDoor(rooms[i]).Some? && FirstDoor(rooms[j]).Some?
  }

  /** The connection record pushed for the pair (i, j). */
  function ConnectionFor(rooms: seq<RoomConfig>, i: nat, j: nat): RoomConnection
    requires i < |rooms| && j < |rooms|
    requires FirstDoor(rooms[i]).Some?
  {
    RoomConnection(i, j, Some(FirstDoor(rooms[i]).value.material),
      Some("Connect " + RoomLabel(rooms[i], i) + " to " + RoomLabel(rooms[j], j)))
  }

  /** The inner loop body for the pair (i, j). */
  function PairWith(rooms: seq<RoomConfig>, i: int): int -> seq<RoomConnection>
  {
    j => if 0 <= i < |rooms| && 0 <= j < |rooms| && Connects(rooms, i, j) then [ConnectionFor(rooms, i, j)] else []
  }

  /** The inner loop for room i: every later room j. */
  function PairsFrom(rooms: seq<RoomConfig>): int -> seq<RoomConnection>
  {
    i => Span(i + 1, |rooms|, PairWith(rooms, i))
  }

  /** The connections `inferRoomConnections` returns, in push order. */
  function Connections(rooms: seq<RoomConfig>): seq<RoomConnection>
  {
    Span(0, |rooms|, PairsFrom(rooms))
  }

  /** `inferRoomConnections(config)`. */
  method InferRoomConnections(config: HouseConfig) returns (connections: seq<RoomConnection>)
    ensures connections == Connections(config.rooms)
  {
    connections := [];
    var i := 0;
    while i < |config.rooms|
      invariant 0 <= i <= |config.rooms|
      invariant connections == Span(0, i, PairsFrom(config.rooms))
    {
      ghost var before := connections;
      var j := i + 1;
      while j < |config.rooms|
        invariant i + 1 <= j <= |config.rooms|
        invariant connections == before + Span(i + 1, j, PairWith(config.rooms, i))
      {
        SpanSnoc(before, i + 1, j, PairWith(config.rooms, i));
        var room1 := config.rooms[i];
        var room2 := config.rooms[j];
        if AreRoomsAdjacent(room1, room2) {
          var door1 := FirstDoor(room1);
          var door2 := FirstDoor(room2);
          if door1.Some? && door2.Some? {
            connections := connections + [ConnectionFor(config.rooms, i, j)];
          }
        }
        j := j + 1;
      }
      SpanNext(0, i, PairsFrom(config.rooms));
      i := i + 1;
    }
  }

  /** The inner loop for room i holds exactly the connections from i to a
      later room it connects to. */
  lemma PairsFromMember(rooms: seq<RoomConfig>, i: nat, c: RoomConnection)
    requires i < |rooms|
    ensures c in PairsFrom(rooms)(i) <==>
      c.fromRoomIndex == i && i < c.toRoomIndex < |rooms| &&
      Connects(rooms, i, c.toRoomIndex) && c == ConnectionFor(rooms, i, c.toRoomIndex)
  {
    SpanMember(i + 1, |rooms|, PairWith(rooms, i), c);
    if c in PairsFrom(rooms)(i) {
      var j :| i + 1 <= j < |rooms| && c in PairWith(rooms, i)(j);
      assert c == ConnectionFor(rooms, i, j);
    }
    if c.fromRoomIndex == i && i < c.toRoomIndex < |rooms| &&
       Connects(rooms, i, c.toRoomIndex) && c == ConnectionFor(rooms, i, c.toRoomIndex) {
      assert c in PairWith(rooms, i)(c.toRoomIndex);
    }
  }

  /** A connection is inferred exactly for each pair i < j of rooms that
      are adjacent and both have a door; it records room i's first door. */
  lemma ConnectionsMember(rooms: seq<RoomConfig>, c: RoomConnection)
    ensures c in Connections(rooms) <==>
      0 <= c.fromRoomIndex < c.toRoomIndex < |rooms| &&
      Connects(rooms, c.fromRoomIndex, c.toRoomIndex) &&
      c == ConnectionFor(rooms, c.fromRoomIndex, c.toRoomIndex)
  {
    SpanMember(0, |rooms|, PairsFrom(rooms), c);
    if c in Connections(rooms) {
      var i :| 0 <= i < |rooms| && c in PairsFrom(rooms)(i);
      PairsFromMember(rooms, i, c);
    }
    if 0 <= c.fromRoomIndex < |rooms| {
      PairsFromMember(rooms, c.fromRoomIndex, c);
    }
  }

  /** Every pair is connected at most once. */
  lemma ConnectionsDistinct(rooms: seq<RoomConfig>)
    ensures Distinct(Connections(rooms))
  {
    forall i | 0 <= i < |rooms|
      ensures Distinct(PairsFrom(rooms)(i))
    {
      forall j | i + 1 <= j < |rooms|
        ensures |PairWith(rooms, i)(j)| <= 1
      {
      }
      forall j1, j2, c | i + 1 <= j1 < j2 < |rooms| && c in PairWith(rooms, i)(j1)
        ensures c !in PairWith(rooms, i)(j2)
      {
      }
      SpanDistinct(i + 1, |rooms|, PairWith(rooms, i));
    }
    forall i1, i2, c | 0 <= i1 < i2 < |rooms| && c in PairsFrom(rooms)(i1)
      ensures c !in PairsFrom(rooms)(i2)
    {
      PairsFromMember(rooms, i1, c);
      PairsFromMember(rooms, i2, c);
    }
    SpanDistinct(0, |rooms|, PairsFrom(rooms));
  }
}
