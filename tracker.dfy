/**
 * The stroke-state tracker: the `userHandles` map from a sender id to that
 * sender's last pen position, and the effect one inbound request has on it.
 */
module Tracker {
  import opened Wrappers
  import opened Schema

  /** A sender id (`mes.from`, the base58 form of a peer id). */
  type PeerId = string

  /** The value stored in `userHandles`: `{oldX, oldY}`. */
  datatype Position = Position(oldX: int, oldY: int)

  /** The position the local peer's own entry is seeded with. */
  const UNSET: Position := Position(-1, -1)

  /** The events `PubsubCanvas` emits to its listeners. */
  datatype Event =
    | CanvasOperateDoing(id: PeerId, oldX: int, oldY: int, nextX: int, nextY: int)
    | CanvasOperateDraw(oldX: int, oldY: int, nextX: int, nextY: int)

  /** The tracker's map after one request, and the events emitted while handling it. */
  datatype Effect = Effect(userHandles: map<PeerId, Position>, events: seq<Event>)

  /**
   * The effect of an operation read from a request sent by `from`. At most one event
   * is emitted, a segment event names its sender, and no other sender's entry changes.
   */
  function Apply(userHandles: map<PeerId, Position>, from: PeerId, op: Operation): (e: Effect)
    ensures |e.events| <= 1
    ensures forall i :: 0 <= i < |e.events| && e.events[i].CanvasOperateDoing? ==> e.events[i].id == from
    ensures forall q :: q != from ==> (q in e.userHandles <==> q in userHandles)
    ensures forall q :: q != from && q in userHandles ==> e.userHandles[q] == userHandles[q]
  {
    match op
    case StartOp(x, y) =>
      Effect(userHandles[from := Position(x, y)], [])
    case EndOp =>
      Effect(userHandles - {from}, [])
    case DoingOp(x, y) =>
      if from !in userHandles then
        Effect(userHandles, [])
      else
        var stored := userHandles[from];
        Effect(userHandles[from := Position(x, y)], [CanvasOperateDoing(from, stored.oldX, stored.oldY, x, y)])
    case DrawOp(ox, oy, nx, ny) =>
      Effect(userHandles, [CanvasOperateDraw(ox, oy, nx, ny)])
  }

  /**
   * The effect of a delivered message: `decoded` is `None` when decoding threw.
   * A decode failure and a request the handler cannot read change nothing.
   */
  function Receive(userHandles: map<PeerId, Position>, from: PeerId, decoded: Option<Request>): (e: Effect)
    ensures |e.events| <= 1
    ensures forall i :: 0 <= i < |e.events| && e.events[i].CanvasOperateDoing? ==> e.events[i].id == from
    ensures forall q :: q != from ==> (q in e.userHandles <==> q in userHandles)
    ensures forall q :: q != from && q in userHandles ==> e.userHandles[q] == userHandles[q]
  {
    match decoded
    case None => Effect(userHandles, [])
    case Some(r) =>
      match Read(r)
      case None => Effect(userHandles, [])
      case Some(op) => Apply(userHandles, from, op)
  }

  /** START sets the sender's position to the payload, overwriting any earlier one, and emits nothing. */
  lemma StartSetsPosition(userHandles: map<PeerId, Position>, p: PeerId, r: Request)
    requires r.tag == START_CANVAS_OPERATE && r.startCanvasOperate.Some?
    ensures Receive(userHandles, p, Some(r)).userHandles
      == userHandles[p := Position(r.startCanvasOperate.value.startX, r.startCanvasOperate.value.startY)]
    ensures Receive(userHandles, p, Some(r)).events == []
  {
  }

  /** END removes the sender's entry if there is one and emits nothing. */
  lemma EndRemovesEntry(userHandles: map<PeerId, Position>, p: PeerId, r: Request)
    requires r.tag == END_CANVAS_OPERATE
    ensures Receive(userHandles, p, Some(r)).userHandles == userHandles - {p}
    ensures p !in userHandles ==> Receive(userHandles, p, Some(r)).userHandles == userHandles
    ensures Receive(userHandles, p, Some(r)).events == []
  {
  }

  /** A second END from the same sender changes nothing. */
  lemma EndIsIdempotent(userHandles: map<PeerId, Position>, p: PeerId, r: Request)
    requires r.tag == END_CANVAS_OPERATE
    ensures var once := Receive(userHandles, p, Some(r)).userHandles;
      Receive(once, p, Some(r)) == Effect(once, [])
  {
  }

  /** DOING from a sender with no open stroke is dropped: nothing emitted, no entry created. */
  lemma DoingWithoutStrokeIsDropped(userHandles: map<PeerId, Position>, p: PeerId, r: Request)
    requires r.tag == DOING_CANVAS_OPERATE
    requires p !in userHandles
    ensures Receive(userHandles, p, Some(r)) == Effect(userHandles, [])
  {
  }

  /**
   * DOING from a sender with an open stroke emits one segment from the stored
   * position to the payload and then stores the payload as the new position.
   */
  lemma DoingEmitsSegment(userHandles: map<PeerId, Position>, p: PeerId, r: Request)
    requires r.tag == DOING_CANVAS_OPERATE && r.doingCanvasOperate.Some?
    requires p in userHandles
    ensures var next := r.doingCanvasOperate.value;
      && Receive(userHandles, p, Some(r)).events
        == [CanvasOperateDoing(p, userHandles[p].oldX, userHandles[p].oldY, next.nextX, next.nextY)]
      && Receive(userHandles, p, Some(r)).userHandles == userHandles[p := Position(next.nextX, next.nextY)]
  {
  }

  /** Two consecutive moves of one stroke chain: the second segment starts where the first ended. */
  lemma DoingSegmentsChain(userHandles: map<PeerId, Position>, p: PeerId, x1: int, y1: int, x2: int, y2: int)
    requires p in userHandles
    ensures var first := Apply(userHandles, p, DoingOp(x1, y1));
      var second := Apply(first.userHandles, p, DoingOp(x2, y2));
      && |first.events| == 1 && |second.events| == 1
      && second.events[0] == CanvasOperateDoing(p, x1, y1, x2, y2)
      && second.events[0].oldX == first.events[0].nextX
      && second.events[0].oldY == first.events[0].nextY
  {
  }

  /**
   * DRAW passes its four coordinates straight through: the map is neither changed
   * nor consulted, so the event is the same whoever sent it and whatever is stored.
   */
  lemma DrawPassesThrough(h1: map<PeerId, Position>, h2: map<PeerId, Position>, p: PeerId, q: PeerId, r: Request)
    requires r.tag == DRAW_CANVAS_OPERATE && r.drawCanvasOperate.Some?
    ensures var d := r.drawCanvasOperate.value;
      && Receive(h1, p, Some(r)) == Effect(h1, [CanvasOperateDraw(d.oldX, d.oldY, d.nextX, d.nextY)])
      && Receive(h1, p, Some(r)).events == Receive(h2, q, Some(r)).events
  {
  }

  /**
   * A decode failure, an unknown tag, or a tag whose payload is absent leaves the map
   * unchanged and emits nothing.
   */
  lemma MalformedIsIgnored(userHandles: map<PeerId, Position>, p: PeerId, decoded: Option<Request>)
    requires decoded.None? || Read(decoded.value).None?
    ensures Receive(userHandles, p, decoded) == Effect(userHandles, [])
  {
  }
}
