/**
 * Properties of whole streams of notifications handled by a session: which peers
 * have an open stroke, which peers are connected, and how the segment events of
 * one stroke chain into a polyline.
 */
module Traces {
  import opened Wrappers
  import opened Schema
  import opened Tracker
  import opened Session

  /** `n` is a START from `p` that carries its payload. */
  predicate IsStart(p: PeerId, n: Notification) {
    && n.Delivered? && n.from == p && n.decoded.Some?
    && n.decoded.value.tag == START_CANVAS_OPERATE
    && n.decoded.value.startCanvasOperate.Some?
  }

  /** `n` is an END from `p`. */
  predicate IsEnd(p: PeerId, n: Notification) {
    n.Delivered? && n.from == p && n.decoded.Some? && n.decoded.value.tag == END_CANVAS_OPERATE
  }

  /** The point of a DOING from `p` that carries its payload. */
  function MovePoint(p: PeerId, n: Notification): Option<Position> {
    if && n.Delivered? && n.from == p && n.decoded.Some?
       && n.decoded.value.tag == DOING_CANVAS_OPERATE
       && n.decoded.value.doingCanvasOperate.Some?
    then
      var d := n.decoded.value.doingCanvasOperate.value;
      Some(Position(d.nextX, d.nextY))
    else
      None
  }

  /** Whether `p` has an open stroke after `ns`, judged only by its STARTs and ENDs. */
  function StrokeOpen(p: PeerId, open: bool, ns: seq<Notification>): bool
    decreases |ns|
  {
    if ns == [] then open
    else StrokeOpen(p, if IsStart(p, ns[0]) then true else if IsEnd(p, ns[0]) then false else open, ns[1..])
  }

  /** Whether `p` is connected after `ns`, judged only by its connect and disconnect notifications. */
  function ConnectedAfter(p: PeerId, connected: bool, ns: seq<Notification>): bool
    decreases |ns|
  {
    if ns == [] then connected
    else
      var n := ns[0];
      ConnectedAfter(p, if n == PeerConnected(p) then true else if n == PeerDisconnected(p) then false else connected, ns[1..])
  }

  /** The points of `p`'s DOING requests in `ns`, in order. */
  function MovesOf(p: PeerId, ns: seq<Notification>): seq<Position>
    decreases |ns|
  {
    if ns == [] then []
    else (match MovePoint(p, ns[0]) case Some(q) => [q] case None => []) + MovesOf(p, ns[1..])
  }

  /** The segment events of `p` in `es`, in order. */
  function EventsOf(p: PeerId, es: seq<Event>): seq<Event>
    decreases |es|
  {
    if es == [] then []
    else (if es[0].CanvasOperateDoing? && es[0].id == p then [es[0]] else []) + EventsOf(p, es[1..])
  }

  /** The polyline through `points` starting at `start`: one segment per point, each from the previous one. */
  function Polyline(p: PeerId, start: Position, points: seq<Position>): seq<Event>
    decreases |points|
  {
    if points == [] then []
    else [CanvasOperateDoing(p, start.oldX, start.oldY, points[0].oldX, points[0].oldY)] + Polyline(p, points[0], points[1..])
  }

  /** The last point of the polyline through `points`, or `start` when there are none. */
  function EndPoint(start: Position, points: seq<Position>): Position {
    if points == [] then start else points[|points| - 1]
  }

  lemma {:induction false} EventsOfAppend(p: PeerId, a: seq<Event>, b: seq<Event>)
    ensures EventsOf(p, a + b) == EventsOf(p, a) + EventsOf(p, b)
    decreases |a|
  {
    if a == [] {
      assert a + b == b;
    } else {
      assert (a + b)[1..] == a[1..] + b;
      EventsOfAppend(p, a[1..], b);
    }
  }

  /** Events that name no segment of `p` add nothing to `p`'s segments. */
  lemma {:induction false} EventsOfForeign(p: PeerId, es: seq<Event>)
    requires forall i :: 0 <= i < |es| && es[i].CanvasOperateDoing? ==> es[i].id != p
    ensures EventsOf(p, es) == []
    decreases |es|
  {
    if es != [] {
      EventsOfForeign(p, es[1..]);
    }
  }

  /** One step on `p`'s entry: only `p`'s own START and END open and close its stroke. */
  lemma StepOpen(s: State, n: Notification, p: PeerId)
    ensures p in Step(s, n).userHandles
      <==> (if IsStart(p, n) then true else if IsEnd(p, n) then false else p in s.userHandles)
  {
  }

  /**
   * The tracker's key invariant: `p` has an entry exactly when its last START (with
   * payload) has not been followed by an END. Disconnects and every other message leave it.
   */
  lemma {:induction false} OpenStrokeIff(s: State, ns: seq<Notification>, p: PeerId)
    ensures p in Replay(s, ns).userHandles <==> StrokeOpen(p, p in s.userHandles, ns)
    decreases |ns|
  {
    if ns != [] {
      StepOpen(s, ns[0], p);
      OpenStrokeIff(Step(s, ns[0]), ns[1..], p);
    }
  }

  /** From construction: only the local peer starts out with an entry. */
  lemma InitialOpenStroke(self: PeerId, ns: seq<Notification>, p: PeerId)
    ensures p in Replay(Initial(self), ns).userHandles <==> StrokeOpen(p, p == self, ns)
  {
    OpenStrokeIff(Initial(self), ns, p);
  }

  /** On a live session: a peer has an entry exactly when its stroke is open in the handled history. */
  lemma CanvasOpenStroke(c: PubsubCanvas, p: PeerId)
    requires c.Valid()
    ensures p in c.userHandles <==> StrokeOpen(p, p == c.localPeer, c.history)
  {
    InitialOpenStroke(c.localPeer, c.history, p);
  }

  /** `connectedPeers` holds exactly the peers whose last lifecycle notification was a connect. */
  lemma {:induction false} ConnectedIff(s: State, ns: seq<Notification>, p: PeerId)
    ensures p in Replay(s, ns).connectedPeers <==> ConnectedAfter(p, p in s.connectedPeers, ns)
    decreases |ns|
  {
    if ns != [] {
      ConnectedIff(Step(s, ns[0]), ns[1..], p);
    }
  }

  /** On a live session: `connectedPeers` holds exactly the peers last seen connecting. */
  lemma CanvasConnected(c: PubsubCanvas, p: PeerId)
    requires c.Valid()
    ensures p in c.connectedPeers <==> ConnectedAfter(p, false, c.history)
  {
    ConnectedIff(Initial(c.localPeer), c.history, p);
  }

  /** Events are only appended: the log before a replay is a prefix of the log after it. */
  lemma {:induction false} EmittedOnlyGrows(s: State, ns: seq<Notification>)
    ensures s.emitted <= Replay(s, ns).emitted
    decreases |ns|
  {
    if ns != [] {
      EmittedOnlyGrows(Step(s, ns[0]), ns[1..]);
    }
  }

  /** Messages from other peers and lifecycle notifications leave `p`'s entry and segments alone. */
  lemma StepForeign(s: State, n: Notification, p: PeerId)
    requires !(n.Delivered? && n.from == p)
    ensures p in Step(s, n).userHandles <==> p in s.userHandles
    ensures p in s.userHandles ==> Step(s, n).userHandles[p] == s.userHandles[p]
    ensures EventsOf(p, Step(s, n).emitted) == EventsOf(p, s.emitted)
  {
    if n.Delivered? {
      var e := Receive(s.userHandles, n.from, n.decoded);
      EventsOfForeign(p, e.events);
      EventsOfAppend(p, s.emitted, e.events);
    }
  }

  /** A peer that sends nothing keeps its entry as it was and gets no segment events. */
  lemma {:induction false} SilentPeerUntouched(s: State, ns: seq<Notification>, p: PeerId)
    requires forall i :: 0 <= i < |ns| ==> !(ns[i].Delivered? && ns[i].from == p)
    ensures p in Replay(s, ns).userHandles <==> p in s.userHandles
    ensures p in s.userHandles ==> Replay(s, ns).userHandles[p] == s.userHandles[p]
    ensures EventsOf(p, Replay(s, ns).emitted) == EventsOf(p, s.emitted)
    decreases |ns|
  {
    if ns != [] {
      StepForeign(s, ns[0], p);
      SilentPeerUntouched(Step(s, ns[0]), ns[1..], p);
    }
  }

  /**
   * Self-seed isolation: as long as no message arrives from the local peer, its seeded
   * entry keeps the unset position and no segment event names it.
   */
  lemma SelfSeedIsolation(self: PeerId, ns: seq<Notification>)
    requires forall i :: 0 <= i < |ns| ==> !(ns[i].Delivered? && ns[i].from == self)
    ensures self in Replay(Initial(self), ns).userHandles
    ensures Replay(Initial(self), ns).userHandles[self] == UNSET
    ensures EventsOf(self, Replay(Initial(self), ns).emitted) == []
  {
    SilentPeerUntouched(Initial(self), ns, self);
  }

  /** One step of an open stroke that neither restarts nor ends. */
  lemma StepWithinStroke(s: State, n: Notification, p: PeerId)
    requires p in s.userHandles
    requires !IsStart(p, n) && !IsEnd(p, n)
    ensures p in Step(s, n).userHandles
    ensures Step(s, n).userHandles[p] == match MovePoint(p, n) case Some(q) => q case None => s.userHandles[p]
    ensures EventsOf(p, Step(s, n).emitted) == EventsOf(p, s.emitted) + Polyline(p, s.userHandles[p],
      match MovePoint(p, n) case Some(q) => [q] case None => [])
  {
    if n.Delivered? && n.from == p {
      var e := Receive(s.userHandles, n.from, n.decoded);
      EventsOfAppend(p, s.emitted, e.events);
      if MovePoint(p, n).None? {
        EventsOfForeign(p, e.events);
      } else {
        var q := MovePoint(p, n).value;
        assert e.events == [CanvasOperateDoing(p, s.userHandles[p].oldX, s.userHandles[p].oldY, q.oldX, q.oldY)];
        assert EventsOf(p, e.events[1..]) == [];
      }
    } else {
      StepForeign(s, n, p);
    }
  }

  /**
   * Stroke reconstruction: while `p`'s stroke stays open, its segment events form the
   * polyline from the stored position through the points of its DOING requests, in
   * order, whatever other peers send meanwhile; each segment starts where the previous
   * one ended, and the stored position ends at the last point.
   */
  lemma {:induction false} StrokeReconstruction(s: State, ns: seq<Notification>, p: PeerId)
    requires p in s.userHandles
    requires forall i :: 0 <= i < |ns| ==> !IsStart(p, ns[i]) && !IsEnd(p, ns[i])
    ensures p in Replay(s, ns).userHandles
    ensures Replay(s, ns).userHandles[p] == EndPoint(s.userHandles[p], MovesOf(p, ns))
    ensures EventsOf(p, Replay(s, ns).emitted)
      == EventsOf(p, s.emitted) + Polyline(p, s.userHandles[p], MovesOf(p, ns))
    decreases |ns|
  {
    if ns != [] {
      var s' := Step(s, ns[0]);
      StepWithinStroke(s, ns[0], p);
      StrokeReconstruction(s', ns[1..], p);
      var rest := MovesOf(p, ns[1..]);
      match MovePoint(p, ns[0])
      case None =>
        assert MovesOf(p, ns) == rest;
      case Some(q) =>
        assert MovesOf(p, ns) == [q] + rest;
        assert ([q] + rest)[1..] == rest;
    }
  }

  /** Each segment of a polyline starts where the previous one ends. */
  lemma {:induction false} PolylineChains(p: PeerId, start: Position, points: seq<Position>, i: nat)
    requires 0 < i < |points|
    ensures |Polyline(p, start, points)| == |points|
    ensures Polyline(p, start, points)[i].oldX == Polyline(p, start, points)[i - 1].nextX
    ensures Polyline(p, start, points)[i].oldY == Polyline(p, start, points)[i - 1].nextY
    decreases |points|
  {
    PolylineLength(p, points[0], points[1..]);
    if i > 1 {
      PolylineChains(p, points[0], points[1..], i - 1);
    } else {
      assert Polyline(p, points[0], points[1..])[0]
        == CanvasOperateDoing(p, points[0].oldX, points[0].oldY, points[1].oldX, points[1].oldY);
    }
  }

  lemma {:induction false} PolylineLength(p: PeerId, start: Position, points: seq<Position>)
    ensures |Polyline(p, start, points)| == |points|
    decreases |points|
  {
    if points != [] {
      PolylineLength(p, points[0], points[1..]);
    }
  }

  /** A repeated END from the same sender changes nothing at all. */
  lemma EndTwiceIsEndOnce(s: State, p: PeerId, r: Request)
    requires r.tag == END_CANVAS_OPERATE
    ensures var once := Step(s, Delivered(p, Some(r)));
      Step(once, Delivered(p, Some(r))) == once
  {
  }

  /** A repeated `peer:connect` changes nothing at all. */
  lemma ConnectTwiceIsConnectOnce(s: State, p: PeerId)
    ensures var once := Step(s, PeerConnected(p));
      Step(once, PeerConnected(p)) == once
  {
  }

  /**
   * START then two DOING then END from one peer gives the two-segment polyline through
   * the three points; a DOING after the END is dropped.
   */
  lemma StrokeScenario(s: State, p: PeerId)
    requires p !in s.userHandles
    ensures var ns := [
        Delivered(p, Some(StartCanvasOperateRequest(10, 10))),
        Delivered(p, Some(DoingCanvasOperateRequest(20, 20))),
        Delivered(p, Some(DoingCanvasOperateRequest(30, 10))),
        Delivered(p, Some(EndCanvasOperateRequest())),
        Delivered(p, Some(DoingCanvasOperateRequest(5, 5)))];
      && Replay(s, ns).emitted
        == s.emitted + [CanvasOperateDoing(p, 10, 10, 20, 20), CanvasOperateDoing(p, 20, 20, 30, 10)]
      && Replay(s, ns).userHandles == s.userHandles
  {
    var ns := [
        Delivered(p, Some(StartCanvasOperateRequest(10, 10))),
        Delivered(p, Some(DoingCanvasOperateRequest(20, 20))),
        Delivered(p, Some(DoingCanvasOperateRequest(30, 10))),
        Delivered(p, Some(EndCanvasOperateRequest())),
        Delivered(p, Some(DoingCanvasOperateRequest(5, 5)))];
    var s1 := Step(s, ns[0]);
    var s2 := Step(s1, ns[1]);
    var s3 := Step(s2, ns[2]);
    var s4 := Step(s3, ns[3]);
    var s5 := Step(s4, ns[4]);
    assert Replay(s4, ns[4..]) == s5;
    assert Replay(s3, ns[3..]) == s5;
    assert Replay(s2, ns[2..]) == s5;
    assert Replay(s1, ns[1..]) == s5;
  }

  /** A disconnect does not close an open stroke: the next DOING still draws from the stored point. */
  lemma StrokeSurvivesDisconnect(s: State, p: PeerId)
    ensures var ns := [
        Delivered(p, Some(StartCanvasOperateRequest(0, 0))),
        PeerDisconnected(p),
        Delivered(p, Some(DoingCanvasOperateRequest(1, 1)))];
      && Replay(s, ns).emitted == s.emitted + [CanvasOperateDoing(p, 0, 0, 1, 1)]
      && p !in Replay(s, ns).connectedPeers
  {
    var ns := [
        Delivered(p, Some(StartCanvasOperateRequest(0, 0))),
        PeerDisconnected(p),
        Delivered(p, Some(DoingCanvasOperateRequest(1, 1)))];
    var s3 := Step(Step(Step(s, ns[0]), ns[1]), ns[2]);
    assert Replay(Step(Step(s, ns[0]), ns[1]), ns[2..]) == s3;
    assert Replay(Step(s, ns[0]), ns[1..]) == s3;
  }
}
