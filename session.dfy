/**
 * The protocol session `PubsubCanvas`: the `userHandles` map, the `connectedPeers`
 * set and the events emitted so far, updated by the three notifications the session
 * handles (a delivered pubsub message, `peer:connect`, `peer:disconnect`).
 */
module Session {
  import opened Wrappers
  import opened Schema
  import opened Tracker

  /** The topic name the application passes to the constructor. */
  const TOPIC: string := "osslab/demo/canvas/1.0.0"

  /** One call into the session from the networking substrate. */
  datatype Notification =
    | Delivered(from: PeerId, decoded: Option<Request>)
    | PeerConnected(peer: PeerId)
    | PeerDisconnected(peer: PeerId)

  /** The session's mutable state, as a value. */
  datatype State = State(userHandles: map<PeerId, Position>, connectedPeers: set<PeerId>, emitted: seq<Event>)

  /** The state right after construction for the local peer `self`. */
  function Initial(self: PeerId): (s: State)
    ensures s.userHandles.Keys == {self} && s.userHandles[self] == UNSET
    ensures s.connectedPeers == {} && s.emitted == []
  {
    State(map[self := UNSET], {}, [])
  }

  /**
   * The state after one notification, routed to its handler: a lifecycle
   * notification touches only `connectedPeers`, a delivered message touches only
   * `userHandles` and appends at most one event to the log.
   */
  function Step(s: State, n: Notification): (r: State)
    ensures n.Delivered? ==> r.connectedPeers == s.connectedPeers
    ensures n.Delivered? ==> s.emitted <= r.emitted && |r.emitted| <= |s.emitted| + 1
    ensures !n.Delivered? ==> r.userHandles == s.userHandles && r.emitted == s.emitted
    ensures n.PeerConnected? ==> r.connectedPeers == s.connectedPeers + {n.peer}
    ensures n.PeerDisconnected? ==> r.connectedPeers == s.connectedPeers - {n.peer}
  {
    match n
    case Delivered(from, decoded) =>
      var e := Receive(s.userHandles, from, decoded);
      State(e.userHandles, s.connectedPeers, s.emitted + e.events)
    case PeerConnected(p) =>
      s.(connectedPeers := s.connectedPeers + {p})
    case PeerDisconnected(p) =>
      s.(connectedPeers := s.connectedPeers - {p})
  }

  /** The state after a sequence of notifications, handled one at a time in order. */
  function Replay(s: State, ns: seq<Notification>): State
    decreases |ns|
  {
    if ns == [] then s else Replay(Step(s, ns[0]), ns[1..])
  }

  /** Handling one more notification extends a replay by one step. */
  lemma {:induction false} ReplaySnoc(s: State, ns: seq<Notification>, n: Notification)
    ensures Replay(s, ns + [n]) == Step(Replay(s, ns), n)
    decreases |ns|
  {
    if ns == [] {
      assert [n][1..] == [];
    } else {
      assert (ns + [n])[1..] == ns[1..] + [n];
      ReplaySnoc(Step(s, ns[0]), ns[1..], n);
    }
  }

  class PubsubCanvas {
    /** The local peer's id, `node.peerId.toB58String()`. */
    const localPeer: PeerId
    const topic: string

    var connectedPeers: set<PeerId>
    var userHandles: map<PeerId, Position>
    /** The events emitted to listeners so far, oldest first. */
    var emitted: seq<Event>

    /** Every notification handled since construction, oldest first. */
    ghost var history: seq<Notification>

    function Snapshot(): State
      reads this
    {
      State(userHandles, connectedPeers, emitted)
    }

    /** The fields are what replaying the history from the initial state gives. */
    ghost predicate Valid()
      reads this
    {
      Snapshot() == Replay(Initial(localPeer), history)
    }

    /** The application constructs its session with `topic == TOPIC`. */
    constructor (localPeer: PeerId, topic: string)
      ensures Valid() && history == []
      ensures this.localPeer == localPeer && this.topic == topic
      ensures userHandles == map[localPeer := UNSET]
      ensures connectedPeers == {} && emitted == []
    {
      this.localPeer := localPeer;
      this.topic := topic;
      connectedPeers := {};
      userHandles := map[localPeer := UNSET];
      emitted := [];
      history := [];
    }

    /** The `peer:connect` handler: records the remote peer once. */
    method OnPeerConnect(remotePeer: PeerId)
      requires Valid()
      modifies this
      ensures Valid() && history == old(history) + [PeerConnected(remotePeer)]
      ensures connectedPeers == old(connectedPeers) + {remotePeer}
      ensures userHandles == old(userHandles) && emitted == old(emitted)
    {
      ReplaySnoc(Initial(localPeer), history, PeerConnected(remotePeer));
      history := history + [PeerConnected(remotePeer)];
      if remotePeer in connectedPeers {
        return;
      }
      connectedPeers := connectedPeers + {remotePeer};
    }

    /** The `peer:disconnect` handler: forgets the remote peer; its stroke state is kept. */
    method OnPeerDisconnect(remotePeer: PeerId)
      requires Valid()
      modifies this
      ensures Valid() && history == old(history) + [PeerDisconnected(remotePeer)]
      ensures connectedPeers == old(connectedPeers) - {remotePeer}
      ensures userHandles == old(userHandles) && emitted == old(emitted)
    {
      ReplaySnoc(Initial(localPeer), history, PeerDisconnected(remotePeer));
      history := history + [PeerDisconnected(remotePeer)];
      connectedPeers := connectedPeers - {remotePeer};
    }

    /**
     * `_onMessage`: handles a message from `from` whose decoding gave `decoded`
     * (`None` when decoding threw). Every error is caught before anything is
     * changed, so the new state is one step of the tracker.
     */
    method OnMessage(from: PeerId, decoded: Option<Request>)
      requires Valid()
      modifies this
      ensures Valid() && history == old(history) + [Delivered(from, decoded)]
      ensures var e := Receive(old(userHandles), from, decoded);
        && userHandles == e.userHandles
        && emitted == old(emitted) + e.events
      ensures connectedPeers == old(connectedPeers)
    {
      ReplaySnoc(Initial(localPeer), history, Delivered(from, decoded));
      history := history + [Delivered(from, decoded)];
      if decoded.None? {
        return;
      }
      var request := decoded.value;
      if request.tag == START_CANVAS_OPERATE {
        if request.startCanvasOperate.None? {
          return;
        }
        var start := request.startCanvasOperate.value;
        userHandles := userHandles[from := Position(start.startX, start.startY)];
      } else if request.tag == END_CANVAS_OPERATE {
        userHandles := userHandles - {from};
      } else if request.tag == DOING_CANVAS_OPERATE {
        if from !in userHandles {
          return;
        }
        if request.doingCanvasOperate.None? {
          return;
        }
        var doing := request.doingCanvasOperate.value;
        emitted := emitted + [CanvasOperateDoing(from, userHandles[from].oldX, userHandles[from].oldY, doing.nextX, doing.nextY)];
        userHandles := userHandles[from := Position(doing.nextX, doing.nextY)];
      } else if request.tag == DRAW_CANVAS_OPERATE {
        if request.drawCanvasOperate.None? {
          return;
        }
        var draw := request.drawCanvasOperate.value;
        emitted := emitted + [CanvasOperateDraw(draw.oldX, draw.oldY, draw.nextX, draw.nextY)];
      }
    }
  }
}
