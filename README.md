# PubsubCanvas stroke protocol, modelled in Dafny

This project models the core of a peer-to-peer collaborative canvas. Peers broadcast
stroke events over a libp2p pubsub topic. Each peer's `PubsubCanvas` session turns the
messages it receives into drawing events for its renderer.

The model covers:

- **`Schema`** (`schema.dfy`): the protobuf `Request` message after decoding. It has a
  `type` tag, which is any integer the decoder hands over (`START_CANVAS_OPERATE = 0` …
  `DRAW_CANVAS_OPERATE = 3`), and three optional payload sub-messages. `Read` is what the
  message handler reads from a request: the switch on `type` and the coordinate
  accesses into that type's payload. The four functions `StartCanvasOperateRequest`,
  `EndCanvasOperateRequest`, `DoingCanvasOperateRequest` and `DrawCanvasOperateRequest`
  are the requests the four `send*` methods build.
- **`Tracker`** (`tracker.dfy`): `userHandles` maps a sender id to that sender's last
  pen position. `Apply` gives the effect of one operation on this map: the new map and
  the events emitted. `Receive` gives the effect of one delivered message, where
  `decoded == None` means `Request.decode` threw.
- **`Session`** (`session.dfy`): the class `PubsubCanvas`. Its fields are
  `connectedPeers`, `userHandles` and the log `emitted` of events sent to listeners.
  Its methods are the constructor, the `peer:connect` and `peer:disconnect` handlers,
  and `_onMessage` (written `OnMessage`), all as imperative code. A ghost `history`
  records every notification handled. `Valid()` says that the fields equal the replay
  (`Replay`) of that history from the initial state, one `Step` per notification,
  matching the event loop's one-handler-at-a-time execution.
- **`Traces`** (`traces.dfy`): lemmas about whole streams of notifications. They cover
  when an entry exists, connected peers, isolation of the local peer's seeded entry,
  and the reconstruction of a stroke as a polyline.

Three behaviours of the code to note:

- `peer:disconnect` only removes the peer from `connectedPeers`. It does not clear the
  peer's entry in `userHandles`, so an open stroke survives a disconnect
  (`Traces.StrokeSurvivesDisconnect`).
- The `Request` schema has no colour or width fields. DRAW carries only four
  coordinates.
- The stroke move message emits `canvas:operate:doing` with the sender's id. A
  self-contained segment emits `canvas:operate:draw`.

The handler reads a DOING with an absent payload in two different ways. If the sender
has no entry, the handler returns before touching the payload. If the sender has an
entry, reading the payload throws and the error is caught. Both paths change nothing,
so `Read` treats them alike. `OnMessage` keeps the two paths separate.

## Model

| member | source | states |
|---|---|---|
| Schema.StartCanvasOperateRequest | src/pubsubcanvas.js:140-147 | the request has the START tag, carries only the start payload, and the receiver reads it as a start at (startX, startY) |
| Schema.EndCanvasOperateRequest | src/pubsubcanvas.js:156-159 | the request has the END tag, carries no payload, and the receiver reads it as an end |
| Schema.DoingCanvasOperateRequest | src/pubsubcanvas.js:172-179 | the request has the DOING tag, carries only the doing payload, and the receiver reads it as a move to (nextX, nextY) |
| Schema.DrawCanvasOperateRequest | src/pubsubcanvas.js:195-201 | the request has the DRAW tag, carries only the draw payload, and the receiver reads it as a segment with the same four coordinates |
| Schema.Read | src/pubsubcanvas.js:92-132 | the handler's switch and payload reads: only a known tag is read, and END is read whatever payloads it carries; its full contract is stated in `ReadFails`, `ReadBuild`, `BuildRead` and `ReadIgnoresOtherPayloads` |
| Schema.ReadBuild | src/pubsubcanvas.js:140-201 | every request a `send*` method builds is well formed and reads back as the operation it was built from |
| Schema.BuildRead | src/pubsubcanvas.js:9-41 | every well-formed request (a known tag with exactly its own payload) is exactly the request some `send*` method builds |
| Schema.ReadFails | src/pubsubcanvas.js:92-129 | the handler ignores a request if and only if its tag is not one of the four enum values, or the payload its tag needs is absent |
| Schema.ReadIgnoresOtherPayloads | src/pubsubcanvas.js:92-126 | only the payload the tag names is read; other payloads do not affect the handler |
| Tracker.Apply | src/pubsubcanvas.js:93-126 | one operation emits at most one event, any segment event names its sender, and no other sender's entry is added, removed or changed |
| Tracker.Receive | src/pubsubcanvas.js:89-133 | the same bounds and frame hold for any delivered message, including a decode failure |
| Tracker.StartSetsPosition | src/pubsubcanvas.js:93-101 | START upserts the sender's entry to the payload's (startX, startY), overwriting any earlier value, and emits nothing |
| Tracker.EndRemovesEntry | src/pubsubcanvas.js:102-104 | END removes the sender's entry, is a no-op when there is none, and emits nothing |
| Tracker.EndIsIdempotent | src/pubsubcanvas.js:102-104 | a second END from the same sender leaves the map unchanged and emits nothing |
| Tracker.DoingWithoutStrokeIsDropped | src/pubsubcanvas.js:105-106 | DOING from a sender with no entry emits nothing and creates no entry |
| Tracker.DoingEmitsSegment | src/pubsubcanvas.js:107-117 | DOING from a sender with an entry emits exactly one `canvas:operate:doing` event from the stored position to the payload, then stores the payload as the position |
| Tracker.DoingSegmentsChain | src/pubsubcanvas.js:107-117 | of two consecutive DOING messages, the second segment's old point is the first segment's next point |
| Tracker.DrawPassesThrough | src/pubsubcanvas.js:119-126 | DRAW emits one `canvas:operate:draw` event with the payload's four coordinates unchanged; it does not touch the map, and the event does not depend on the map or the sender |
| Tracker.MalformedIsIgnored | src/pubsubcanvas.js:90-132 | a decode failure, an unknown tag or an absent payload leaves the map unchanged and emits nothing |
| Session.Initial | src/pubsubcanvas.js:55-58 | the initial state holds only the local peer's entry, at (-1,-1), no connected peers and no events |
| Session.Step | src/pubsubcanvas.js:60-133 | routes one substrate callback to its handler: connect adds and disconnect removes the peer and touch nothing else; a delivered message leaves `connectedPeers` alone and appends at most one event |
| Session.ReplaySnoc | src/pubsubcanvas.js:89-133 | handling notifications one at a time in order: replaying one more notification is one more step |
| Session.PubsubCanvas.constructor | src/pubsubcanvas.js:49-58 | `userHandles` is exactly {local peer ↦ (-1,-1)}, `connectedPeers` and the event log are empty, and the object invariant holds |
| Session.PubsubCanvas.OnPeerConnect | src/pubsubcanvas.js:60-65 | adds the remote peer to `connectedPeers` (set semantics) and changes nothing else |
| Session.PubsubCanvas.OnPeerDisconnect | src/pubsubcanvas.js:67-71 | removes the remote peer from `connectedPeers`; `userHandles` and the event log are unchanged |
| Session.PubsubCanvas.OnMessage | src/pubsubcanvas.js:89-133 | the new `userHandles` and the events appended are exactly one `Receive` step; `connectedPeers` is unchanged; the object invariant is kept |
| Traces.OpenStrokeIff | src/pubsubcanvas.js:93-117 | a peer has an entry if and only if its last START (with payload) is not followed by an END; disconnects and all other messages do not affect this |
| Traces.InitialOpenStroke | src/pubsubcanvas.js:56-104 | from construction, the same holds, with the local peer counted as open from the start |
| Traces.CanvasOpenStroke | src/pubsubcanvas.js:56-117 | on a live `PubsubCanvas` satisfying its invariant, a peer is in `userHandles` exactly when its stroke is open in the handled history |
| Traces.ConnectedIff | src/pubsubcanvas.js:60-71 | a peer is in `connectedPeers` if and only if its last lifecycle notification was a connect |
| Traces.CanvasConnected | src/pubsubcanvas.js:55-71 | on a live `PubsubCanvas`, `connectedPeers` holds exactly the peers whose last lifecycle notification in the history was a connect |
| Traces.EmittedOnlyGrows | src/pubsubcanvas.js:107-125 | events are only appended: the earlier log is a prefix of the later one |
| Traces.SilentPeerUntouched | src/pubsubcanvas.js:93-117 | a peer that sends nothing keeps its entry (presence and value) and gets no segment events, whatever others send |
| Traces.SelfSeedIsolation | src/pubsubcanvas.js:56-58 | while no message comes from the local peer, its entry stays at (-1,-1) and no segment event names it |
| Traces.StrokeReconstruction | src/pubsubcanvas.js:105-117 | while a stroke stays open, the peer's segment events are the polyline from the stored point through its DOING points in order, interleaved with any traffic from others; the stored point ends at the last DOING point |
| Traces.PolylineChains | src/pubsubcanvas.js:107-117 | in that polyline, every segment starts where the previous one ended |
| Traces.EndTwiceIsEndOnce | src/pubsubcanvas.js:102-104 | a repeated END changes no part of the session state |
| Traces.ConnectTwiceIsConnectOnce | src/pubsubcanvas.js:60-65 | a repeated `peer:connect` changes no part of the session state |
| Traces.StrokeScenario | src/pubsubcanvas.js:93-117 | START(10,10), DOING(20,20), DOING(30,10), END, DOING(5,5) emits (10,10)→(20,20), then (20,20)→(30,10), and nothing after the END |
| Traces.StrokeSurvivesDisconnect | src/pubsubcanvas.js:67-71 | after START(0,0) and a disconnect of the same peer, DOING(1,1) still emits (0,0)→(1,1) |

## Left out

- Protobuf encoding and decoding (`Request.encode`/`Request.decode` of the `protons` library) belong to a library not modelled here. Decoding is an input, `Option<Request>`, where `None` is a decode that threw. There is no byte-level round trip; the round trip is stated on `Request` values.
- `join`, `leave` and the `isStarted` check in the constructor: these subscribe and unsubscribe through libp2p. Also, `join` is not idempotent in the code, because each call adds another listener.
- Publishing in the `send*` methods (`node.pubsub.publish`, awaited, with errors caught and logged) is network I/O. Only the request each method builds is modelled.
- Dispatch to EventEmitter listeners, and `console.log` / `console.error`. Emission is appending to the `emitted` log. A listener that throws inside `emit` during a DOING would leave the event emitted but the position not updated; this model assumes listeners do not throw.
- Coordinates are unbounded integers. The schema's `int64` range and the precision of JavaScript numbers do not matter to the stroke logic.
- The libp2p node creation, transports, ping and DOM listeners in `src/index.js`, and the build configuration, have no protocol logic. webpack.config.js is not part of this model.
