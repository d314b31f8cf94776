# babel-stream-talk: signaling, transport and peer registry in Dafny

babel-stream-talk is a browser video-call app. A Node server relays WebRTC
signaling between the participants of a room and broadcasts caption frames.
Each browser holds three things:

- a reconnecting WebSocket client (`WebSocketManager`);
- a registry of peer connections (`WebRTCManager`);
- a call component that routes signaling messages into the registry and
  keeps the caption history and the list of remote tiles.

This project models those four pieces and proves what each promises.

- `wire.dfy`: the messages on the wire (`Wire`), and the insertion order
  of a JavaScript `Map`'s keys (`KeyOrder`: `set` appends a new key,
  `delete` removes one).
- `fanout.dfy` (`Fanout`): the server's sockets, each an open flag plus an
  outbox. It defines the `peer-joined` fan-out of a join and the
  `peer-left` broadcast of a close as functions, with lemmas saying what
  each recipient receives.
- `relay.dfy` (`Relay`): the signaling server as a class (`rooms`, the
  connections, and each connection's `currentRoomId`). It has the
  `forEach` loops as methods proved against the `Fanout` functions, and
  scenario methods that run whole sessions.
- `captions.dfy`: upgrade routing and the caption room id (`Upgrade`),
  and the relay-wide caption broadcast (`CaptionRelay`).
- `transport.dfy` (`Transport`): the `WebSocketManager` class.
  - Every event is a method whose new state is given by a step function
    over the manager's fields.
  - The shared reconnect counter, the linear backoff and the
  `disconnect` behaviour are proved as lemmas about those step
  functions.
- `registry.dfy` (`PeerRegistry`): the `WebRTCManager` class, with an
  `RTCPeerConnection` reduced to a handle with a `closed` flag and what
  was applied to it.
- `videocall.dfy` (`VideoCall`): the React updaters (captions capped at
  100, remote-peer upsert and filter, grid layout) as functions, and the
  component as a class whose methods are the signaling dispatcher and
  the connection callbacks.

Where the code differs from the repository's own description of it, the
model follows the code:

- The `room-peers` reply lists the room's keys after the joiner was
  added, so it includes the joiner.
- Both sides of a new pair receive `peer-joined`, so both send an offer.
- The signaling and captions channels share one reconnect counter.
- A second `join-room` on one connection leaves the peer registered in
  the first room, and the close handler removes it only from the last
  room (`Relay.StaleMemberScenario`).

## Model

| member | source | states |
|---|---|---|
| KeyOrder.Register | server/server.js:78 | `Map.set` keeps every old key in its place and adds the key once; distinct keys stay distinct |
| KeyOrder.Unregister | server/server.js:119 | `Map.delete` leaves exactly the other keys; distinct keys stay distinct and the length drops by one iff the key was there; deleting an absent key leaves the key order unchanged |
| KeyOrder.UnregisterAt | server/server.js:119 | in a key list without repeats, deleting the key at index i leaves the keys before i followed by the keys after i, in their order |
| Fanout.Send | server/server.js:62-66 | `client.send` appends the frame to that socket's outbox only; its open flag and every other socket are unchanged |
| Fanout.AnnounceOne | server/server.js:60-73 | one iteration keeps the sockets and their open flags, and changes nothing when the member is not open |
| Fanout.Announce | server/server.js:59-75 | the join loop keeps the set of sockets and every open flag |
| Fanout.PeerJoinedEach | server/server.js:69-73 | one `peer-joined` per listed member, in order, naming that member |
| Fanout.AnnounceOneAt | server/server.js:60-73 | one iteration appends to a socket only when the member is open: the joiner's id to the member, the member's id to the joiner |
| Fanout.AnnounceOutbox | server/server.js:59-75 | after the whole loop, each socket's outbox is its old outbox followed by exactly its notices, and its open flag is unchanged |
| Fanout.NoticesToBystander | server/server.js:59-75 | a socket that is neither the joiner nor a member receives nothing |
| Fanout.NoticesToMember | server/server.js:60-66 | an existing member receives exactly one `peer-joined` naming the joiner when open, and nothing when not open |
| Fanout.NoticesToJoiner | server/server.js:68-73 | the joiner receives one `peer-joined` per open member, in the room's key order |
| Fanout.Join | server/server.js:59-85 | a join keeps the sockets and their open flags, and its last frame to the joiner is `room-peers` listing the members then the joiner |
| Fanout.JoinDeliveries | server/server.js:58-85 | a whole join: members get their notice; the joiner gets its notices then `room-peers` listing every member and itself; bystanders get nothing |
| Fanout.Broadcast | server/server.js:122-130 | the close broadcast keeps the set of sockets and every open flag |
| Fanout.BroadcastOutbox | server/server.js:122-130 | each open remaining member gets exactly one copy of the frame; closed sockets and non-members get nothing |
| Relay.Depart | server/server.js:116-139 | other rooms are untouched; the room keeps the other members in order and is deleted iff no other member remains |
| Relay.Rewritten | server/server.js:99-102 | the forwarded copy names the sender and keeps the type, room, data and peers of the original |
| Relay.JoinKeepsRegistry | server/server.js:48-85 | a join keeps the relay invariant (every room is non-empty with distinct keys of known sockets; every connection whose close handler has not run and that has a room is a member of it, open or already closing); afterwards the room exists and holds the joiner |
| Relay.CloseKeepsRegistry | server/server.js:113-141 | a close keeps the relay invariant for the other connections: no empty room is left behind, and every other peer is still a member of its current room |
| Relay.AnnounceLoop | server/server.js:59-75 | the `room.forEach` of a join computes exactly `Announce` |
| Relay.BroadcastLoop | server/server.js:122-130 | the `room.forEach` of a close computes exactly `Broadcast` |
| Relay.SignalingRelay.constructor | server/server.js:7 | the relay starts with no rooms and no connections |
| Relay.SignalingRelay.Accept | server/server.js:37-41 | a new connection is open, has an empty outbox and no room; rooms are unchanged |
| Relay.SignalingRelay.Deliverable | server/server.js:94-101 | a deliverable forward has a truthy target that is a member of the sender's current room and whose socket is open |
| Relay.SignalingRelay.BeginClose | server/server.js:98-123 | a connection whose close frame has arrived is no longer open, so no send reaches it, but it stays in its rooms until its close handler runs |
| Relay.SignalingRelay.HandleJoin | server/server.js:48-88 | the room is created if absent and gets the joiner last; the current room is overwritten; the sockets are updated as `Join` says |
| Relay.SignalingRelay.HandleForward | server/server.js:90-106 | a forward is delivered iff the sender has a truthy current room, the message a truthy `peerId`, the room exists and the target is in it and open; the delivered message has the sender's id; otherwise nothing changes; rooms never change |
| Relay.SignalingRelay.HandleMessage | server/server.js:43-111 | a parse failure or unknown type changes nothing and keeps the connection; `join-room` acts as `HandleJoin`, a forward as `HandleForward` |
| Relay.SignalingRelay.Close | server/server.js:113-141 | with a truthy current room, the peer leaves that room (deleted if empty) and each remaining open member gets one `peer-left`; otherwise only the socket closes |
| Relay.JoinFirst | server/server.js:48-88 | the first joiner creates the room and receives `room-peers` listing only itself |
| Relay.JoinSecond | server/server.js:59-85 | the second joiner and the first each receive one `peer-joined` naming the other; `room-peers` lists both |
| Relay.Exchange | server/server.js:94-103 | an offer and an answer each reach the other peer, rewritten to name their sender |
| Relay.LeaveSecond | server/server.js:116-138 | when one of two leaves, the other gets one `peer-left` and the room keeps one member |
| Relay.LeaveLast | server/server.js:133-134 | when the last member leaves, the room is deleted |
| Relay.ClosingTarget | server/server.js:94-130 | an offer to a peer whose socket is closing is dropped; when that peer's close handler runs, the other member gets one `peer-left` |
| Relay.Meet | server/server.js:48-103 | two peers join the same room and exchange an offer and an answer, with the exact outboxes that result |
| Relay.RendezvousScenario | server/server.js:43-141 | a full session of two peers (join, offer, answer, both leave) gives these exact message lists and ends with no rooms |
| Relay.JoinTwice | server/server.js:49 | a second join leaves the peer in both rooms and makes the later room current |
| Relay.JoinTwiceThenLeave | server/server.js:116-119 | closing after two joins removes the peer from the later room only; the earlier room keeps it |
| Relay.StaleMemberScenario | server/server.js:116-119 | a peer that joined twice and closed stays listed in the first room's `room-peers` sent to the next joiner |
| Upgrade.Route | server/server.js:20-34 | the exact signaling path goes to signaling, a path under `/ws/captions/` to captions, and every other path is destroyed |
| Upgrade.LastSegment | server/server.js:151 | the room id is the suffix after the last `/` (the whole path when there is none) and contains no `/` |
| Upgrade.LastSegmentAfterSlash | server/server.js:151 | a path ending in `/` followed by a text without `/` has that text as its last segment |
| Upgrade.RouteClientPaths | src/utils/websocket.ts:111 | the path the client opens for a room is routed to captions, and the server reads back the same room id when it has no `/` |
| CaptionRelay.RelayedDeliveries | server/server.js:155-162 | a caption frame is never echoed to its sender, reaches every other open client whatever its room path, and leaves closed clients untouched |
| CaptionRelay.Relayed | server/server.js:155-161 | relaying a frame keeps the client set and every client's open flag |
| CaptionRelay.CaptionServer.constructor | server/server.js:17 | the caption server starts with no clients |
| CaptionRelay.CaptionServer.Accept | server/server.js:149-153 | a routed connection joins the client set, open, under the room id from its path |
| CaptionRelay.CaptionServer.Broadcast | server/server.js:155-162 | the loop over the client set, in any order, computes exactly `Relayed` |
| CaptionRelay.CaptionServer.BeginClose | server/server.js:158 | a closing client stays in the set but no longer receives frames |
| CaptionRelay.CaptionServer.Close | server/server.js:164-166 | a closed client leaves the set; nothing else changes |
| CaptionRelay.CrossRoomScenario | server/server.js:155-161 | a caption sent under room `abc` reaches a client opened under `xyz`, and not its sender |
| Transport.SignalingCloseReaction | src/utils/websocket.ts:83-94 | a retry happens iff the code is not 1000 and attempts < 5; it counts one more attempt and waits 2000 × attempts; the loss is reported iff attempts ≥ 5 |
| Transport.CaptionsCloseReaction | src/utils/websocket.ts:134-140 | a captions retry happens iff the code is not 1000 and the shared attempts < 5; it waits 2000 and counts nothing; nothing is reported |
| Transport.AbnormalCloses | src/utils/websocket.ts:83-94 | `n` abnormal signaling closes in a row give `n` reactions, each from the counter the previous one left |
| Transport.BackoffSchedule | src/utils/websocket.ts:83-94 | consecutive abnormal closes wait 2000, 4000, … until the cap, then each reports the lost connection |
| Transport.FirstSixCloses | src/utils/websocket.ts:83-91 | from zero, six abnormal closes give five retries (2000 to 10000) and then the terminal error |
| Transport.CloseAfterCap | src/utils/websocket.ts:172 | at the cap, no close of either channel schedules a reconnect, and any signaling close reports the loss |
| Transport.SendOn | src/utils/websocket.ts:147-153 | a frame is appended only to the current socket, and only when it is open; no socket changes state |
| Transport.SendSignalingStep | src/utils/websocket.ts:147-153 | sending changes only the signaling sockets, and the manager stays consistent |
| Transport.SentIffConnected | src/utils/websocket.ts:147-153 | `sendSignaling` changes the manager's state iff `isConnected()` would answer true |
| Transport.CloseCurrent | src/utils/websocket.ts:174-175 | `close(1000)` moves a connecting or open current socket out of those states and leaves every other socket alone |
| Transport.ConnectSignalingStep | src/utils/websocket.ts:44-100 | records the room and handler; cancels only the signaling timer; reports `connecting`; makes a new socket for the room with no error, or reports the failure and keeps the previous socket; no other field changes, so the captions channel and the handed-over messages are untouched |
| Transport.SignalingOpenedStep | src/utils/websocket.ts:57-62 | an open resets the counter to 0, reports `connected` and marks that socket open; one `join-room` for the opened socket's room goes to the current socket when it is the opened one or already open, and no other socket, timer, error or field changes |
| Transport.SignalingClosedStep | src/utils/websocket.ts:78-95 | a close reports `disconnected` and marks the socket closed; on a retry decision the counter takes the new attempt count and one pending signaling timer with the backoff delay is added and remembered; on an exhausted-retries decision the error is reported; otherwise counter, timers and errors are unchanged; no other field changes |
| Transport.ConnectCaptionsStep | src/utils/websocket.ts:102-145 | records the handler; cancels only the captions timer; makes a captions socket that becomes current, or, when the constructor throws, keeps the previous socket current and reports nothing; no other field changes, so the counter, room, reports, delivered messages and the whole signaling channel stay as they were |
| Transport.CaptionsClosedStep | src/utils/websocket.ts:130-141 | a captions close marks the socket closed, never changes the counter and reports nothing; on a retry decision one pending captions timer for that socket's room is added and remembered, otherwise timers are unchanged; no other field changes |
| Transport.FireTimerStep | src/utils/websocket.ts:87-138 | a fired timer is no longer pending and the counter is unchanged; a signaling retry reconnects (reports `connecting`, makes a socket for the current room) iff the room is truthy and a handler is set, a captions retry reconnects to the room it captured iff that room is truthy and a handler is set, and otherwise nothing else changes. A reconnect makes the new socket current (or, when the constructor throws, keeps the previous one and, for signaling, reports the failure), clears that channel's timer field and its pending mark, and changes no other field, so each channel's retry leaves the other channel's socket, timer, handler and room alone |
| Transport.DisconnectStep | src/utils/websocket.ts:161-182 | both timers are cancelled; the counter is set to the cap; the current signaling and captions sockets are closed and both references, both handlers and the room are cleared; statuses, errors, delivered messages and captions are unchanged |
| Transport.DisconnectSilencesReconnect | src/utils/websocket.ts:161-182 | after `disconnect`, a close of any socket schedules nothing, and a signaling close, even a normal one, reports the lost connection |
| Transport.DisconnectStopsRetries | src/utils/websocket.ts:161-182 | after `disconnect`, firing any remaining timer, including one whose field was overwritten and so never cleared, makes no socket |
| Transport.OpenResetsBackoff | src/utils/websocket.ts:57-91 | after an open, the next abnormal close waits the base delay and counts one attempt |
| Transport.WebSocketManager.constructor | src/utils/websocket.ts:17-34 | no sockets, counter 0, no timers, empty room, no handlers |
| Transport.WebSocketManager.IsConnected | src/utils/websocket.ts:184-186 | true only when the current signaling socket exists and is open |
| Transport.WebSocketManager.SendSignaling | src/utils/websocket.ts:147-153 | the new state is `SendSignalingStep` of the old |
| Transport.WebSocketManager.ConnectSignaling | src/utils/websocket.ts:44-100 | the new state is `ConnectSignalingStep` of the old |
| Transport.WebSocketManager.SignalingOpened | src/utils/websocket.ts:57-62 | the new state is `SignalingOpenedStep` of the old |
| Transport.WebSocketManager.SignalingMessage | src/utils/websocket.ts:64-71 | a parsed message is handed to the handler; a parse failure changes nothing |
| Transport.WebSocketManager.SignalingErrored | src/utils/websocket.ts:73-76 | an error reports only the connect failure |
| Transport.WebSocketManager.SignalingClosed | src/utils/websocket.ts:78-95 | the new state is `SignalingClosedStep` of the old |
| Transport.WebSocketManager.ConnectCaptions | src/utils/websocket.ts:102-145 | the new state is `ConnectCaptionsStep` of the old |
| Transport.WebSocketManager.CaptionsOpened | src/utils/websocket.ts:113-115 | only the socket's state changes |
| Transport.WebSocketManager.CaptionsMessage | src/utils/websocket.ts:117-124 | a parsed caption is handed to the handler; a parse failure changes nothing |
| Transport.WebSocketManager.CaptionsClosed | src/utils/websocket.ts:130-141 | the new state is `CaptionsClosedStep` of the old |
| Transport.WebSocketManager.FireTimer | src/utils/websocket.ts:87-138 | the new state is `FireTimerStep` of the old, so a retry reconnects exactly under the source's conditions |
| Transport.WebSocketManager.Disconnect | src/utils/websocket.ts:161-182 | the new state is `DisconnectStep` of the old |
| Transport.DisconnectThenNormalClose | src/utils/websocket.ts:161-182 | opened, disconnected, then a normal close: reports `connecting`, `connected`, `disconnected`, then the one lost-connection error; no timer is pending |
| PeerRegistry.Values | src/utils/webrtc.ts:188-190 | `getAllPeers` lists the entries in key order |
| PeerRegistry.FindPeer | src/components/VideoCall.tsx:114 | `find` returns the first entry with that peer id, or none when no entry has it |
| PeerRegistry.FindRegistered | src/components/VideoCall.tsx:114 | the lookup over `getAllPeers()` finds a peer iff it has an entry, and finds that entry |
| PeerRegistry.CloseKeys | src/utils/webrtc.ts:205-207 | closing each key's connection keeps the list of connections the same length |
| PeerRegistry.CloseKeysAt | src/utils/webrtc.ts:205-207 | after the loop, a connection is closed iff it was already closed or belongs to a registered key; nothing else about it changes |
| PeerRegistry.TrackKeepsTable | src/utils/webrtc.ts:69-78 | the `ontrack` update or re-insertion keeps the registry invariant |
| PeerRegistry.RemoveKeepsTable | src/utils/webrtc.ts:179-186 | closing a registered peer's connection and deleting its key keeps the registry invariant |
| PeerRegistry.WebRTCManager.constructor | src/utils/webrtc.ts:7-9 | no entries, no local stream |
| PeerRegistry.WebRTCManager.GetLocalStream | src/utils/webrtc.ts:20-43 | the cached stream is returned once set; otherwise the captured stream is cached, or access failure is reported |
| PeerRegistry.WebRTCManager.CreatePeerConnection | src/utils/webrtc.ts:45-119 | an existing peer gets its connection back with nothing changed; a new peer gets a new open connection, which carries the local stream, and one entry `{stream: null}` appended last |
| PeerRegistry.WebRTCManager.CreateDescription | src/utils/webrtc.ts:121-140 | fails with "not initialized" iff the peer has no entry; succeeds iff the entry's connection is open and the browser accepts, and then the generated description becomes the local description; a failure changes no connection |
| PeerRegistry.WebRTCManager.SetRemoteDescription | src/utils/webrtc.ts:142-147 | fails with "not initialized" iff the peer has no entry; succeeds iff the description is present, the connection open and the browser accepts it, and then applies it; a failure changes no connection |
| PeerRegistry.WebRTCManager.AddIceCandidate | src/utils/webrtc.ts:149-161 | never fails; an unknown peer or a refused candidate changes nothing; otherwise the candidate is appended |
| PeerRegistry.WebRTCManager.RemovePeer | src/utils/webrtc.ts:179-186 | closes and deletes only that peer's entry; an absent peer changes nothing |
| PeerRegistry.WebRTCManager.Track | src/utils/webrtc.ts:64-81 | the peer the connection was made for gets the stream on its entry, or a new entry when it was removed |
| PeerRegistry.WebRTCManager.ConnectionStateChanged | src/utils/webrtc.ts:92-102 | `failed` or `closed` removes that peer exactly as `removePeer` (its connection closed, or nothing when it has no entry); other states change nothing |
| PeerRegistry.WebRTCManager.GetPeerStream | src/utils/webrtc.ts:192-194 | the entry's stream, or none for an unknown peer |
| PeerRegistry.WebRTCManager.GetAllPeers | src/utils/webrtc.ts:188-190 | one entry per registered peer, in insertion order (the i-th is the entry of the i-th key); every entry is listed, and every listed entry is the one the map holds for its peer id |
| PeerRegistry.WebRTCManager.Cleanup | src/utils/webrtc.ts:200-211 | stops the local stream; closes every registered connection in key order; empties the map; forgets the local stream |
| PeerRegistry.CloseLoop | src/utils/webrtc.ts:205-207 | the `forEach` computes exactly `CloseKeys` |
| VideoCall.AppendCaption | src/components/VideoCall.tsx:187-196 | the new caption is last; the history is a suffix of old plus new, of length min(old + 1, 100) |
| VideoCall.CaptionHistory | src/components/VideoCall.tsx:29 | after any number of captions, the history is exactly the newest 100 of all received, in order |
| VideoCall.Without | src/components/VideoCall.tsx:94 | the filter keeps exactly the entries for other peers |
| VideoCall.WithoutOnePerPeer | src/components/VideoCall.tsx:170 | filtering keeps at most one entry per peer |
| VideoCall.Restream | src/components/VideoCall.tsx:84 | the `map` gives the peer's entries the stream and keeps the others in place |
| VideoCall.WithStream | src/components/VideoCall.tsx:81-87 | the peer's tile shows the new stream; other tiles are unchanged and in order; a tile is added iff none existed; at most one tile per peer |
| VideoCall.GridCols | src/components/VideoCall.tsx:305-310 | never more columns than participants; up to eight participants fit in two rows at the widest |
| VideoCall.ClassName | src/components/VideoCall.tsx:306-310 | the first class of the layout names its columns on the narrowest screen, the last its columns on the widest |
| VideoCall.GridWidens | src/components/VideoCall.tsx:306-310 | more participants never means fewer columns, on any screen |
| VideoCall.TrackKeepsShown | src/components/VideoCall.tsx:79-87 | after `ontrack`, every tile still matches its registry entry's stream |
| VideoCall.Call.constructor | src/components/VideoCall.tsx:35-45 | a call starts with no tiles, no captions, status `connecting` and an empty registry |
| VideoCall.Call.PeerJoinedCase | src/components/VideoCall.tsx:61-108 | shows `Participant joined`; creates or reuses the connection (exact registry, key order and connections); when it is open and the browser accepts the offer, sets it as local description and sends exactly one offer to the peer in the call's room; otherwise reports the error and sends nothing |
| VideoCall.Call.EnsureConnection | src/components/VideoCall.tsx:113-144 | a connection is made and registered last iff the peer has none; otherwise the registry, key order and connections are unchanged |
| VideoCall.Call.OfferCase | src/components/VideoCall.tsx:110-155 | connects only if absent; if the offer is refused, reports the error; if the answer is refused, keeps the applied offer and reports the error; otherwise applies both and sends one answer back to the sender; every other connection, the entries and the key order are as `createPeerConnection` leaves them |
| VideoCall.Call.AnswerOffer | src/components/VideoCall.tsx:146-154 | on a registered peer: the three outcomes of applying the offer and generating the answer, with exact connections, sends and toasts |
| VideoCall.Call.AnswerCase | src/components/VideoCall.tsx:157-160 | applies the answer iff the entry exists, its connection is open, the data is present and the browser accepts it; otherwise reports the error; sends nothing; entries and key order unchanged |
| VideoCall.Call.IceCandidateCase | src/components/VideoCall.tsx:162-165 | appends the candidate to an existing open connection when accepted, otherwise nothing; never reports |
| VideoCall.Call.PeerLeftCase | src/components/VideoCall.tsx:167-175 | the peer's connection is closed and its entry and key removed, every other connection unchanged; its tiles are dropped; one `Participant left` toast |
| VideoCall.Call.HandleSignalingMessage | src/components/VideoCall.tsx:47-185 | messages without a truthy `peerId` and unknown types change nothing; `peer-joined` sends one offer or adds the error toast, `offer` sends one answer or adds the error toast, `answer` adds the error toast iff it is not applied, `ice-candidate` never reports, `peer-left` removes the peer and its tiles; only `peer-joined` and `offer` send; the call invariant holds throughout |
| VideoCall.Call.IceGathered | src/components/VideoCall.tsx:71-78 | a gathered candidate is sent once, to the peer the connection was made for; none sends nothing |
| VideoCall.Call.TrackReceived | src/components/VideoCall.tsx:79-88 | the connection's peer gets the stream on its registry entry (kept connection) or a new entry registered last, every other entry and every connection unchanged; its tile shows the stream |
| VideoCall.Call.ConnectionStateChanged | src/components/VideoCall.tsx:89-96 | `connected` sets the status; `failed` and `closed` remove the peer from the tiles and, as `removePeer`, from the registry with its connection closed and the others unchanged; other states change nothing |
| VideoCall.Call.HandleCaption | src/components/VideoCall.tsx:187-196 | the history becomes `AppendCaption` of the old one; nothing else changes |
| VideoCall.Call.Layout | src/components/VideoCall.tsx:305-310 | the grid for the local tile plus the remote tiles has no more columns than tiles, and with fewer than eight remote tiles it fits in two rows |

## Left out

- JSON parsing and URL parsing: a parsed message is an `Option`, a request
  is its pathname.
- Real sockets, the HTTP server, the `ws` library's upgrade handshake and
  SIGTERM handling. A server socket is an open flag plus an outbox; a
  client socket is a ready state plus the frames sent on it.
- Server peer ids come from `Math.random`. Here they are parameters,
  assumed fresh: `Relay.SignalingRelay.Accept` requires an unused id.
- Media capture, SDP generation, ICE gathering, `addTrack`, the STUN
  configuration, `toggleAudio`/`toggleVideo` and `getCurrentLocalStream`.
  The browser's results (a stream, a generated description, whether it
  accepts a local description, a remote description or a candidate) are
  parameters.
- The connection's signaling state (`stable`, `have-local-offer`, …) is
  not modelled. Since both sides offer, a real browser refuses an answer
  that reaches a connection already back in `stable`; here that refusal is
  the `accepted` parameter being false, not a consequence of the state.
- `oniceconnectionstatechange` and the error handlers of both servers:
  they only log.
- `sendAudioChunk` and the captions `onopen`/`onerror`: they send audio or
  only log.
- Wall-clock time. A timer is a stored delay that can be fired; it is not
  ordered against other events.
- Async interleaving: each handler runs to completion. In the browser, the
  awaits inside `handleSignalingMessage` let other events run between its
  steps.
- The owner callbacks `onConnectionStatusChange` and `onConnectionError`
  are assumed set: every report is logged. The call component sets both
  before it connects (src/components/VideoCall.tsx:212-222).
- `initializeCall`, the component's `cleanup`, `endCall`, `copyRoomLink`,
  `downloadTranscript`, the effects and the JSX. They are lifecycle and UI
  wiring around operations modelled here.
- The hand-off between the transport and the component:
  `Transport.WebSocketManager.SignalingMessage` records the message given
  to the handler, and `VideoCall.Call.HandleSignalingMessage` is called
  with it separately.
- Events on a connection are accepted whatever its state. A connection the
  registry has closed can still report a track or a state change, as a
  browser may deliver one already queued.
- `createOffer` and `createAnswer` are one method,
  `PeerRegistry.WebRTCManager.CreateDescription`, since they differ only
  in the browser call.
- VideoCall.Call.HandleSignalingMessage: states per message type the
  sends, the toasts and the registry keys, not the exact connections. Those
  are in the contract of the `*Case` method it calls.
- VideoCall.Call.Layout: states the column bound and the two-row bound for
  the current number of tiles. That more tiles never narrow the grid relates
  two counts, so it is proved about `VideoCall.GridCols`.
