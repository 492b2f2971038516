// The shared part of every prefab (scripts/prefabs/Prefab.ts): local offsets
// along the length axis, the local-to-world shift, and what it means to issue
// puts through the put callback.
module PrefabBase {
  import opened Errors
  import opened Geometry
  import opened Blocks
  import opened Puts

  /** What a draw does when every put it makes returns normally: the calls it
      makes, in order, and the error it throws itself afterwards, if any. */
  datatype Drawn = Drawn(calls: seq<Put>, error: Option<Error>)

  /** A run against a put callback: the calls actually made, in order, and
      the exception that ended the run, if one did. */
  datatype Trace = Trace(puts: seq<Put>, error: Option<Error>)

  /** How the put callback reacts to a call: None when it returns normally,
      Some(e) when it throws e. */
  type Sink = Put -> Option<Error>

  /** The calls are made one after another until one of them throws; that
      call has been made, the later ones are not. */
  function Deliver(calls: seq<Put>, sink: Sink): (t: Trace)
    ensures |t.puts| <= |calls|
    decreases |calls|
  {
    if calls == [] then Trace([], None)
    else if sink(calls[0]).Some? then Trace([calls[0]], sink(calls[0]))
    else
      var rest := Deliver(calls[1..], sink);
      Trace([calls[0]] + rest.puts, rest.error)
  }

  /** A delivery makes a prefix of the calls; it ends normally exactly when
      every call returns normally, and otherwise with the error of its last
      call, all earlier ones having returned normally. */
  lemma {:induction false} DeliverFacts(calls: seq<Put>, sink: Sink)
    ensures var t := Deliver(calls, sink);
      && t.puts == calls[..|t.puts|]
      && (t.error.None? <==> forall k :: 0 <= k < |calls| ==> sink(calls[k]).None?)
      && (t.error.None? ==> t.puts == calls)
      && (t.error.Some? ==> |t.puts| > 0 && t.error == sink(t.puts[|t.puts| - 1]))
      && (forall k :: 0 <= k < |t.puts| - 1 ==> sink(t.puts[k]).None?)
    decreases |calls|
  {
    if calls != [] && sink(calls[0]).None? {
      DeliverFacts(calls[1..], sink);
      var rest := Deliver(calls[1..], sink);
      assert Deliver(calls, sink).puts == [calls[0]] + rest.puts;
      forall k | 0 <= k < |calls| && k > 0 ensures calls[k] == calls[1..][k - 1] { }
    }
  }

  /** A draw run against the callback: its calls are delivered, and if all of
      them return normally the draw's own error, if any, ends the run. */
  function Run(d: Drawn, sink: Sink): (t: Trace)
    ensures |t.puts| <= |d.calls|
  {
    var t := Deliver(d.calls, sink);
    if t.error.Some? then t else Trace(t.puts, d.error)
  }

  /** One run followed by another that starts after the first ended
      normally. */
  function Then(a: Trace, b: Trace): (t: Trace)
    requires a.error.None?
    ensures t.puts == a.puts + b.puts && t.error == b.error
  {
    Trace(a.puts + b.puts, b.error)
  }

  /** Delivering a + b is delivering a and, when a ended normally,
      delivering b after it. */
  lemma {:induction false} DeliverAppend(a: seq<Put>, b: seq<Put>, sink: Sink)
    ensures Deliver(a, sink).error.Some? ==> Deliver(a + b, sink) == Deliver(a, sink)
    ensures Deliver(a, sink).error.None? ==>
      Deliver(a + b, sink) == Then(Deliver(a, sink), Deliver(b, sink))
    decreases |a|
  {
    if a == [] {
      assert a + b == b;
    } else {
      assert (a + b)[0] == a[0] && (a + b)[1..] == a[1..] + b;
      if sink(a[0]).None? {
        DeliverAppend(a[1..], b, sink);
        assert [a[0]] + (Deliver(a[1..], sink).puts + Deliver(b, sink).puts) ==
          ([a[0]] + Deliver(a[1..], sink).puts) + Deliver(b, sink).puts;
      }
    }
  }

  /** Issuing calls one after another through the callback. */
  method Issue(calls: seq<Put>, sink: Sink) returns (t: Trace)
    ensures t == Deliver(calls, sink)
  {
    var made: seq<Put> := [];
    for i := 0 to |calls|
      invariant made == calls[..i]
      invariant forall k :: 0 <= k < i ==> sink(calls[k]).None?
    {
      if sink(calls[i]).Some? {
        DeliverAfterAccepted(calls, i, sink);
        return Trace(made + [calls[i]], sink(calls[i]));
      }
      made := made + [calls[i]];
    }
    DeliverAfterAccepted(calls, |calls|, sink);
    return Trace(made, None);
  }

  /** Once the first i calls have returned normally, the run goes on as a
      run of the remaining calls. */
  lemma {:induction false} DeliverAfterAccepted(calls: seq<Put>, i: nat, sink: Sink)
    requires i <= |calls|
    requires forall k :: 0 <= k < i ==> sink(calls[k]).None?
    ensures Deliver(calls, sink) == Trace(calls[..i] + Deliver(calls[i..], sink).puts, Deliver(calls[i..], sink).error)
  {
    if i > 0 {
      DeliverAfterAccepted(calls[1..], i - 1, sink);
      assert calls[1..][i - 1..] == calls[i..];
      assert calls[..i] == [calls[0]] + calls[1..][..i - 1];
    }
  }

  /** `getOffsetPoint(offset)`: the point `offset` blocks along the length
      axis of the rotation. A negative offset is refused before the
      rotation is looked at. */
  function OffsetPoint(rotation: int, offset: int): (r: Result<Point>)
    ensures offset < 0 ==> r == Failure(NegativeOffset)
    ensures offset >= 0 && !ValidRotation(rotation) ==> r == Failure(InvalidRotation(rotation))
    ensures offset >= 0 && ValidRotation(rotation) ==> r == Success(Forward(QuarterOf(rotation).value).Scale(offset))
  {
    if offset < 0 then Failure(NegativeOffset)
    else match rotation
      case 0 => Success(Point(offset, 0, 0))
      case 90 => Success(Point(0, 0, offset))
      case 180 => Success(Point(-offset, 0, 0))
      case 270 => Success(Point(0, 0, -offset))
      case _ => Failure(InvalidRotation(rotation))
  }

  /** Offsets along one axis add up: stepping a then b lands where stepping
      a + b does. */
  lemma OffsetPointAdditive(rotation: int, a: nat, b: nat)
    requires ValidRotation(rotation)
    ensures OffsetPoint(rotation, a + b).value == OffsetPoint(rotation, a).value.Plus(OffsetPoint(rotation, b).value)
  {
  }

  /** `localToWorld(p)`: a plain shift by the anchor point, whatever the
      rotation. */
  function LocalToWorld(o: Orientation, p: Point): (w: Point)
    ensures w.x - p.x == o.point.x && w.y - p.y == o.point.y && w.z - p.z == o.point.z
  {
    o.point.Plus(p)
  }
}
