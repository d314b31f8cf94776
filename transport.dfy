/** The reconnecting client transport of src/utils/websocket.ts: the
    WebSocketManager with its two channels (signaling and captions), the one
    reconnect counter they share, their reconnect timers, and the callbacks
    it makes to its owner.

    Each socket event (open, message, error, close) and each timer expiry is
    one method call, run to completion. A socket is never forgotten: the
    manager's `signalingWs` and `captionsWs` fields point into the list of
    every socket made so far, since an event can still arrive on a socket the
    field no longer points to. A timer is a stored delay that can be fired. */
module Transport {
  import opened Wire

  const MaxReconnectAttempts: nat := 5
  const ReconnectDelay: nat := 2000
  /** The close code of a normal closure. */
  const NormalClosure: int := 1000

  /** `WebSocket.readyState`. */
  datatype ReadyState = Connecting | Open | Closing | Closed

  /** The status reported to the owner through `onConnectionStatusChange`. */
  datatype Status = Connecting | Connected | Disconnected

  /** The three messages reported through `onConnectionError`. */
  datatype ConnectionError =
    | FailedToConnect     // 'Failed to connect to signaling server. ...'
    | LostConnection      // 'Lost connection to server. Please refresh the page.'
    | FailedToEstablish   // 'Failed to establish connection. ...'

  /** A socket, with the room id its callbacks captured and the frames sent on it. */
  datatype Sock = Sock(roomId: RoomId, state: ReadyState, sent: seq<Message>)

  /** A scheduled reconnect: its delay, and for captions the room id it captured. */
  datatype Timer = SignalingRetry(delay: nat) | CaptionsRetry(delay: nat, roomId: RoomId)

  // ---------------------------------------------------------------------
  // The two `onclose` decisions, as functions of the shared counter.

  /** What a close does besides reporting `disconnected`. */
  datatype Reaction =
    | Retry(attempts: nat, delay: nat)   // the counter becomes `attempts`; a timer of `delay` is scheduled
    | Report(error: ConnectionError)     // the owner is told the connection is lost
    | Quiet                              // nothing

  /** The signaling `onclose` (src/utils/websocket.ts:83-94): an abnormal close
      below the cap counts one more attempt and waits that many base delays;
      at the cap the loss is reported whatever the code. */
  function SignalingCloseReaction(attempts: nat, code: int): (r: Reaction)
    ensures r.Retry? <==> code != NormalClosure && attempts < MaxReconnectAttempts
    ensures r.Retry? ==> r.attempts == attempts + 1 <= MaxReconnectAttempts && r.delay == ReconnectDelay * r.attempts
    ensures r.Report? <==> attempts >= MaxReconnectAttempts
    ensures r.Report? ==> r.error == LostConnection
  {
    if code != NormalClosure && attempts < MaxReconnectAttempts then
      Retry(attempts + 1, ReconnectDelay * (attempts + 1))
    else if attempts >= MaxReconnectAttempts then Report(LostConnection)
    else Quiet
  }

  /** The captions `onclose` (src/utils/websocket.ts:134-140): an abnormal close
      below the shared cap waits one base delay and counts nothing. */
  function CaptionsCloseReaction(attempts: nat, code: int): (r: Reaction)
    ensures r.Retry? <==> code != NormalClosure && attempts < MaxReconnectAttempts
    ensures r.Retry? ==> r.attempts == attempts && r.delay == ReconnectDelay
    ensures !r.Report?
  {
    if code != NormalClosure && attempts < MaxReconnectAttempts then Retry(attempts, ReconnectDelay)
    else Quiet
  }

  /** The reactions to `n` abnormal signaling closes in a row, none followed by an open. */
  function AbnormalCloses(attempts: nat, n: nat, code: int): (rs: seq<Reaction>)
    requires code != NormalClosure
    ensures |rs| == n
    decreases n
  {
    if n == 0 then []
    else
      var r := SignalingCloseReaction(attempts, code);
      [r] + AbnormalCloses(if r.Retry? then r.attempts else attempts, n - 1, code)
  }

  /** The linear backoff: from `attempts` below the cap, the next closes wait
      2000, 4000, ... up to 10000 milliseconds, and every close after the cap
      is reached reports the lost connection and schedules nothing. */
  lemma {:induction false} BackoffSchedule(attempts: nat, n: nat, code: int, i: nat)
    requires code != NormalClosure && attempts <= MaxReconnectAttempts && i < n
    ensures i < MaxReconnectAttempts - attempts ==>
      AbnormalCloses(attempts, n, code)[i] == Retry(attempts + i + 1, ReconnectDelay * (attempts + i + 1))
    ensures i >= MaxReconnectAttempts - attempts ==>
      AbnormalCloses(attempts, n, code)[i] == Report(LostConnection)
    decreases n
  {
    var r := SignalingCloseReaction(attempts, code);
    var next := if r.Retry? then r.attempts else attempts;
    if i > 0 {
      BackoffSchedule(next, n - 1, code, i - 1);
    }
  }

  /** From a fresh counter, six abnormal closes give exactly five retries, with
      delays 2000 to 10000, then the terminal error. */
  lemma FirstSixCloses(code: int)
    requires code != NormalClosure
    ensures AbnormalCloses(0, 6, code) == [
      Retry(1, 2000), Retry(2, 4000), Retry(3, 6000), Retry(4, 8000), Retry(5, 10000),
      Report(LostConnection)]
  {
    var s := AbnormalCloses(0, 6, code);
    forall i | 0 <= i < 6 ensures s[i] == [
      Retry(1, 2000), Retry(2, 4000), Retry(3, 6000), Retry(4, 8000), Retry(5, 10000),
      Report(LostConnection)][i]
    {
      BackoffSchedule(0, 6, code, i);
    }
  }

  /** Once the counter is at the cap, as `disconnect` leaves it, no close of
      either channel schedules a reconnect, and a signaling close, even a
      normal one, reports the lost connection. */
  lemma CloseAfterCap(attempts: nat, code: int)
    requires attempts == MaxReconnectAttempts
    ensures SignalingCloseReaction(attempts, code) == Report(LostConnection)
    ensures CaptionsCloseReaction(attempts, code) == Quiet
  {
  }


  // ---------------------------------------------------------------------
  // The manager's fields as one value, and what each event does to them.

  /** What lies outside the manager: every socket it has made (an event can
      still arrive on a socket no field points to any more), every timer it
      has scheduled with the set of those still pending (neither fired nor
      cleared), and what its owner's callbacks have been given: the statuses
      and errors reported, and the messages and captions handed to the
      handlers. */
  datatype World = World(
    signalingSockets: seq<Sock>, captionsSockets: seq<Sock>,
    timers: seq<Timer>, pending: set<nat>,
    statuses: seq<Status>, errors: seq<ConnectionError>,
    delivered: seq<Message>, captions: seq<Caption>)

  /** The fields of a WebSocketManager and the world it acts on. A socket or
      timer field is an index into the world's lists; a handler field is
      whether the handler is set. */
  datatype Fields = Fields(
    signalingWs: Option<nat>, captionsWs: Option<nat>,
    reconnectAttempts: nat,
    signalingReconnectTimer: Option<nat>, captionsReconnectTimer: Option<nat>,
    currentRoomId: RoomId, hasSignalingHandler: bool, hasCaptionHandler: bool,
    world: World)

  /** A socket field, when set, points into its socket list. */
  predicate Below(field: Option<nat>, n: nat) {
    field.Some? ==> field.value < n
  }

  predicate AllBelow(ids: set<nat>, n: nat) {
    forall t | t in ids :: t < n
  }

  /** A timer field, when set, names a scheduled timer of its own channel. */
  predicate SignalingTimer(field: Option<nat>, timers: seq<Timer>) {
    field.Some? ==> field.value < |timers| && timers[field.value].SignalingRetry?
  }

  predicate CaptionsTimer(field: Option<nat>, timers: seq<Timer>) {
    field.Some? ==> field.value < |timers| && timers[field.value].CaptionsRetry?
  }

  /** What every event keeps: the counter never passes the cap, and every
      socket and timer field points at something that exists. */
  predicate Consistent(f: Fields) {
    && f.reconnectAttempts <= MaxReconnectAttempts
    && Below(f.signalingWs, |f.world.signalingSockets|) && Below(f.captionsWs, |f.world.captionsSockets|)
    && AllBelow(f.world.pending, |f.world.timers|)
    && SignalingTimer(f.signalingReconnectTimer, f.world.timers)
    && CaptionsTimer(f.captionsReconnectTimer, f.world.timers)
  }

  /** The timer a timer field names, if any: what `clearTimeout` cancels. */
  function Named(field: Option<nat>): set<nat> {
    if field.Some? then {field.value} else {}
  }

  /** `ws?.readyState === WebSocket.OPEN` for the socket a field points to. */
  predicate OpenCurrent(socks: seq<Sock>, current: Option<nat>) {
    current.Some? && current.value < |socks| && socks[current.value].state == ReadyState.Open
  }

  /** `sendSignaling(msg)`: the frame goes out on the current socket when that
      socket is open, and is dropped otherwise; no socket changes state. */
  function SendOn(socks: seq<Sock>, current: Option<nat>, msg: Message): (r: seq<Sock>)
    ensures |r| == |socks|
    ensures forall j | 0 <= j < |socks| ::
      && r[j].roomId == socks[j].roomId && r[j].state == socks[j].state
      && r[j].sent == socks[j].sent + (if current == Some(j) && socks[j].state == ReadyState.Open then [msg] else [])
  {
    if OpenCurrent(socks, current) then
      var i := current.value;
      socks[i := socks[i].(sent := socks[i].sent + [msg])]
    else socks
  }

  /** `sendSignaling(msg)` as a step: only the signaling sockets change, and
      only the current one, when it is open, gets the frame. */
  function SendSignalingStep(f: Fields, msg: Message): (g: Fields)
    ensures Consistent(f) ==> Consistent(g)
    ensures g == f.(world := f.world.(signalingSockets := g.world.signalingSockets))
    ensures |g.world.signalingSockets| == |f.world.signalingSockets|
    ensures forall j | 0 <= j < |f.world.signalingSockets| ::
      var before, after := f.world.signalingSockets[j], g.world.signalingSockets[j];
      && after.roomId == before.roomId && after.state == before.state
      && after.sent == before.sent + (if f.signalingWs == Some(j) && before.state == ReadyState.Open then [msg] else [])
  {
    f.(world := f.world.(signalingSockets := SendOn(f.world.signalingSockets, f.signalingWs, msg)))
  }

  /** `isConnected()` is exactly when `sendSignaling` puts a frame on the wire. */
  lemma {:induction false} SentIffConnected(f: Fields, msg: Message)
    ensures SendSignalingStep(f, msg) != f <==> OpenCurrent(f.world.signalingSockets, f.signalingWs)
  {
    if OpenCurrent(f.world.signalingSockets, f.signalingWs) {
      var i := f.signalingWs.value;
      assert |SendSignalingStep(f, msg).world.signalingSockets[i].sent| == |f.world.signalingSockets[i].sent| + 1;
    }
  }

  /** `ws?.close(1000, ...)` on the current socket, if any: a connecting or
      open socket starts closing; a closing or closed one is left as it is. */
  function CloseCurrent(socks: seq<Sock>, current: Option<nat>): (r: seq<Sock>)
    requires Below(current, |socks|)
    ensures |r| == |socks|
    ensures forall j | 0 <= j < |socks| && current != Some(j) :: r[j] == socks[j]
    ensures current.Some? ==>
      var i := current.value;
      && r[i].roomId == socks[i].roomId && r[i].sent == socks[i].sent
      && r[i].state !in {ReadyState.Connecting, ReadyState.Open}
      && (socks[i].state in {ReadyState.Closing, ReadyState.Closed} ==> r[i] == socks[i])
  {
    if current.Some? && socks[current.value].state in {ReadyState.Connecting, ReadyState.Open} then
      socks[current.value := socks[current.value].(state := ReadyState.Closing)]
    else socks
  }

  /** `connectSignaling(roomId, onMessage)`: record the room and the handler,
      cancel this channel's reconnect timer, report `connecting`, and make a
      new socket. `created` is false when the WebSocket constructor throws;
      the failure is then reported and the previous socket stays current. */
  function ConnectSignalingStep(f: Fields, roomId: RoomId, created: bool): (g: Fields)
    ensures Consistent(f) ==> Consistent(g)
    ensures g.currentRoomId == roomId && g.hasSignalingHandler && g.signalingReconnectTimer == None
    ensures g.world.pending == f.world.pending - Named(f.signalingReconnectTimer) && g.world.timers == f.world.timers
    ensures g.reconnectAttempts == f.reconnectAttempts && g.world.statuses == f.world.statuses + [Status.Connecting]
    ensures created ==>
      && g.signalingWs == Some(|f.world.signalingSockets|)
      && g.world.signalingSockets == f.world.signalingSockets + [Sock(roomId, ReadyState.Connecting, [])]
      && g.world.errors == f.world.errors
    ensures !created ==>
      && g.signalingWs == f.signalingWs
      && g.world.signalingSockets == f.world.signalingSockets && g.world.errors == f.world.errors + [FailedToEstablish]
    ensures g.captionsWs == f.captionsWs && g.captionsReconnectTimer == f.captionsReconnectTimer
    ensures g.hasCaptionHandler == f.hasCaptionHandler && g.world.captionsSockets == f.world.captionsSockets
    ensures g.world.delivered == f.world.delivered && g.world.captions == f.world.captions
    ensures g == f.(signalingWs := g.signalingWs, signalingReconnectTimer := None, currentRoomId := roomId,
                    hasSignalingHandler := true, world := g.world)
    ensures g.world == f.world.(signalingSockets := g.world.signalingSockets, pending := g.world.pending,
                                statuses := g.world.statuses, errors := g.world.errors)
  {
    var w := f.world.(pending := f.world.pending - Named(f.signalingReconnectTimer),
                      statuses := f.world.statuses + [Status.Connecting]);
    var g := f.(currentRoomId := roomId, hasSignalingHandler := true, signalingReconnectTimer := None);
    if created then
      g.(signalingWs := Some(|w.signalingSockets|),
         world := w.(signalingSockets := w.signalingSockets + [Sock(roomId, ReadyState.Connecting, [])]))
    else g.(world := w.(errors := w.errors + [FailedToEstablish]))
  }

  /** `onopen` of signaling socket `id`: reset the shared counter, report
      `connected`, and send `join-room` for the room this socket was made for,
      on whichever signaling socket is current. */
  function SignalingOpenedStep(f: Fields, id: nat): (g: Fields)
    requires id < |f.world.signalingSockets|
    ensures Consistent(f) ==> Consistent(g)
    ensures g.reconnectAttempts == 0 && g.world.statuses == f.world.statuses + [Status.Connected]
    ensures |g.world.signalingSockets| == |f.world.signalingSockets|
    ensures g.world.signalingSockets[id].state == ReadyState.Open
    ensures forall j | 0 <= j < |f.world.signalingSockets| ::
      var before, after := f.world.signalingSockets[j], g.world.signalingSockets[j];
      && after.roomId == before.roomId
      && (j != id ==> after.state == before.state)
      && after.sent == before.sent
           + if f.signalingWs == Some(j) && (j == id || before.state == ReadyState.Open)
             then [JoinRoomMsg(f.world.signalingSockets[id].roomId)] else []
    ensures g == f.(reconnectAttempts := 0, world := g.world)
    ensures g.world == f.world.(signalingSockets := g.world.signalingSockets, statuses := g.world.statuses)
  {
    var socks := f.world.signalingSockets;
    var nowOpen := socks[id := socks[id].(state := ReadyState.Open)];
    f.(reconnectAttempts := 0,
       world := f.world.(signalingSockets := SendOn(nowOpen, f.signalingWs, JoinRoomMsg(socks[id].roomId)),
                         statuses := f.world.statuses + [Status.Connected]))
  }

  /** `onclose` of signaling socket `id` with `code`: report `disconnected`,
      then react as `SignalingCloseReaction` says. A retry overwrites the
      timer field without clearing the timer it named. */
  function SignalingClosedStep(f: Fields, id: nat, code: int): (g: Fields)
    requires id < |f.world.signalingSockets|
    ensures Consistent(f) ==> Consistent(g)
    ensures g.world.statuses == f.world.statuses + [Status.Disconnected]
    ensures g.world.signalingSockets
         == f.world.signalingSockets[id := f.world.signalingSockets[id].(state := ReadyState.Closed)]
    ensures var r := SignalingCloseReaction(f.reconnectAttempts, code);
      && g.world.errors == f.world.errors + (if r.Report? then [r.error] else [])
      && (r.Retry? ==>
            && g.reconnectAttempts == r.attempts
            && g.world.timers == f.world.timers + [SignalingRetry(r.delay)]
            && g.signalingReconnectTimer == Some(|f.world.timers|)
            && g.world.pending == f.world.pending + {|f.world.timers|})
      && (!r.Retry? ==>
            && g.reconnectAttempts == f.reconnectAttempts && g.signalingReconnectTimer == f.signalingReconnectTimer
            && g.world.timers == f.world.timers && g.world.pending == f.world.pending)
    ensures g == f.(reconnectAttempts := g.reconnectAttempts, signalingReconnectTimer := g.signalingReconnectTimer,
                    world := g.world)
    ensures g.world == f.world.(signalingSockets := g.world.signalingSockets, statuses := g.world.statuses,
                                errors := g.world.errors, timers := g.world.timers, pending := g.world.pending)
  {
    var socks := f.world.signalingSockets;
    var w := f.world.(signalingSockets := socks[id := socks[id].(state := ReadyState.Closed)],
                      statuses := f.world.statuses + [Status.Disconnected]);
    match SignalingCloseReaction(f.reconnectAttempts, code)
    case Retry(attempts, delay) =>
      f.(reconnectAttempts := attempts, signalingReconnectTimer := Some(|w.timers|),
         world := w.(timers := w.timers + [SignalingRetry(delay)], pending := w.pending + {|w.timers|}))
    case Report(error) => f.(world := w.(errors := w.errors + [error]))
    case Quiet => f.(world := w)
  }

  /** `connectCaptions(roomId, onCaption)`: record the handler, cancel this
      channel's reconnect timer and make a new socket; a constructor that
      throws is only logged. */
  function ConnectCaptionsStep(f: Fields, roomId: RoomId, created: bool): (g: Fields)
    ensures Consistent(f) ==> Consistent(g)
    ensures g.hasCaptionHandler && g.captionsReconnectTimer == None
    ensures g.world.pending == f.world.pending - Named(f.captionsReconnectTimer) && g.world.timers == f.world.timers
    ensures g.reconnectAttempts == f.reconnectAttempts && g.currentRoomId == f.currentRoomId
    ensures g.world.statuses == f.world.statuses && g.world.errors == f.world.errors
    ensures g.world.signalingSockets == f.world.signalingSockets
    ensures created ==>
      g.captionsWs == Some(|f.world.captionsSockets|)
      && g.world.captionsSockets == f.world.captionsSockets + [Sock(roomId, ReadyState.Connecting, [])]
    ensures !created ==> g.world.captionsSockets == f.world.captionsSockets && g.captionsWs == f.captionsWs
    ensures g == f.(captionsWs := g.captionsWs, captionsReconnectTimer := None, hasCaptionHandler := true,
                    world := g.world)
    ensures g.world == f.world.(captionsSockets := g.world.captionsSockets, pending := g.world.pending)
  {
    var w := f.world.(pending := f.world.pending - Named(f.captionsReconnectTimer));
    var g := f.(hasCaptionHandler := true, captionsReconnectTimer := None);
    if created then
      g.(captionsWs := Some(|w.captionsSockets|),
         world := w.(captionsSockets := w.captionsSockets + [Sock(roomId, ReadyState.Connecting, [])]))
    else g.(world := w)
  }

  /** `onclose` of captions socket `id` with `code`: react as
      `CaptionsCloseReaction` says; the timer captures the socket's room id. */
  function CaptionsClosedStep(f: Fields, id: nat, code: int): (g: Fields)
    requires id < |f.world.captionsSockets|
    ensures Consistent(f) ==> Consistent(g)
    ensures g.reconnectAttempts == f.reconnectAttempts
    ensures g.world.statuses == f.world.statuses && g.world.errors == f.world.errors
    ensures g.world.captionsSockets
         == f.world.captionsSockets[id := f.world.captionsSockets[id].(state := ReadyState.Closed)]
    ensures var r := CaptionsCloseReaction(f.reconnectAttempts, code);
      && (r.Retry? ==>
            && g.world.timers == f.world.timers + [CaptionsRetry(r.delay, f.world.captionsSockets[id].roomId)]
            && g.captionsReconnectTimer == Some(|f.world.timers|)
            && g.world.pending == f.world.pending + {|f.world.timers|})
      && (!r.Retry? ==>
            && g.captionsReconnectTimer == f.captionsReconnectTimer
            && g.world.timers == f.world.timers && g.world.pending == f.world.pending)
    ensures g == f.(captionsReconnectTimer := g.captionsReconnectTimer, world := g.world)
    ensures g.world == f.world.(captionsSockets := g.world.captionsSockets, timers := g.world.timers,
                                pending := g.world.pending)
  {
    var socks := f.world.captionsSockets;
    var w := f.world.(captionsSockets := socks[id := socks[id].(state := ReadyState.Closed)]);
    match CaptionsCloseReaction(f.reconnectAttempts, code)
    case Retry(_, delay) =>
      f.(captionsReconnectTimer := Some(|w.timers|),
         world := w.(timers := w.timers + [CaptionsRetry(delay, socks[id].roomId)], pending := w.pending + {|w.timers|}))
    case _ => f.(world := w)
  }

  /** Timer `t` expires. A signaling retry reconnects to the manager's current
      room when there is one and a handler is set; a captions retry reconnects
      to the room it captured when that is not empty and a handler is set.
      Otherwise the expiry changes nothing but the timer's own pending mark. */
  function FireTimerStep(f: Fields, t: nat, created: bool): (g: Fields)
    requires t < |f.world.timers|
    ensures Consistent(f) ==> Consistent(g)
    ensures t !in g.world.pending && g.world.timers == f.world.timers && g.reconnectAttempts == f.reconnectAttempts
    ensures f.world.timers[t].SignalingRetry? ==>
      && g.world.captionsSockets == f.world.captionsSockets && g.captionsWs == f.captionsWs
      && if f.currentRoomId != "" && f.hasSignalingHandler then
           && g.world.statuses == f.world.statuses + [Status.Connecting]
           && g.currentRoomId == f.currentRoomId && g.signalingReconnectTimer == None
           && g.world.signalingSockets
              == f.world.signalingSockets + (if created then [Sock(f.currentRoomId, ReadyState.Connecting, [])] else [])
           && g.signalingWs == (if created then Some(|f.world.signalingSockets|) else f.signalingWs)
           && g.world.errors == f.world.errors + (if created then [] else [FailedToEstablish])
           && g.world.pending == f.world.pending - {t} - Named(f.signalingReconnectTimer)
           && g == f.(signalingWs := g.signalingWs, signalingReconnectTimer := None, world := g.world)
           && g.world == f.world.(signalingSockets := g.world.signalingSockets, statuses := g.world.statuses,
                                  errors := g.world.errors, pending := g.world.pending)
         else g == f.(world := f.world.(pending := f.world.pending - {t}))
    ensures f.world.timers[t].CaptionsRetry? ==>
      var roomId := f.world.timers[t].roomId;
      && g.world.signalingSockets == f.world.signalingSockets && g.signalingWs == f.signalingWs
      && g.world.statuses == f.world.statuses && g.world.errors == f.world.errors
      && if roomId != "" && f.hasCaptionHandler then
           && g.captionsReconnectTimer == None
           && g.world.captionsSockets
              == f.world.captionsSockets + (if created then [Sock(roomId, ReadyState.Connecting, [])] else [])
           && g.captionsWs == (if created then Some(|f.world.captionsSockets|) else f.captionsWs)
           && g.world.pending == f.world.pending - {t} - Named(f.captionsReconnectTimer)
           && g == f.(captionsWs := g.captionsWs, captionsReconnectTimer := None, hasCaptionHandler := true,
                      world := g.world)
           && g.world == f.world.(captionsSockets := g.world.captionsSockets, pending := g.world.pending)
         else g == f.(world := f.world.(pending := f.world.pending - {t}))
  {
    var g := f.(world := f.world.(pending := f.world.pending - {t}));
    match f.world.timers[t]
    case SignalingRetry(_) =>
      if f.currentRoomId != "" && f.hasSignalingHandler then ConnectSignalingStep(g, f.currentRoomId, created) else g
    case CaptionsRetry(_, roomId) =>
      if roomId != "" && f.hasCaptionHandler then ConnectCaptionsStep(g, roomId, created) else g
  }

  /** `disconnect`: clear both timers, saturate the shared counter, start a
      normal close of both current sockets, and forget the sockets, the
      handlers and the room. */
  function DisconnectStep(f: Fields): (g: Fields)
    requires Consistent(f)
    ensures Consistent(g)
    ensures g.reconnectAttempts == MaxReconnectAttempts && g.world.timers == f.world.timers
    ensures g.world.pending == f.world.pending - Named(f.signalingReconnectTimer) - Named(f.captionsReconnectTimer)
    ensures g.signalingReconnectTimer == None && g.captionsReconnectTimer == None
    ensures g.signalingWs == None && g.captionsWs == None
    ensures !g.hasSignalingHandler && !g.hasCaptionHandler && g.currentRoomId == ""
    ensures g.world.signalingSockets == CloseCurrent(f.world.signalingSockets, f.signalingWs)
    ensures g.world.captionsSockets == CloseCurrent(f.world.captionsSockets, f.captionsWs)
    ensures g.world == f.world.(signalingSockets := g.world.signalingSockets, captionsSockets := g.world.captionsSockets,
                                pending := g.world.pending)
  {
    Fields(None, None, MaxReconnectAttempts, None, None, "", false, false,
           f.world.(pending := f.world.pending - Named(f.signalingReconnectTimer) - Named(f.captionsReconnectTimer),
                    signalingSockets := CloseCurrent(f.world.signalingSockets, f.signalingWs),
                    captionsSockets := CloseCurrent(f.world.captionsSockets, f.captionsWs)))
  }

  /** After `disconnect`, the close of any signaling socket schedules no
      reconnect and reports the lost connection, even with the normal code
      that `disconnect` itself asked for; the close of any captions socket
      schedules nothing either. */
  lemma DisconnectSilencesReconnect(f: Fields, sid: nat, cid: nat, code: int)
    requires Consistent(f) && sid < |f.world.signalingSockets| && cid < |f.world.captionsSockets|
    ensures var d := DisconnectStep(f);
      && SignalingClosedStep(d, sid, code).world.errors == f.world.errors + [LostConnection]
      && SignalingClosedStep(d, sid, code).world.timers == f.world.timers
      && SignalingClosedStep(d, sid, code).world.pending == d.world.pending
      && CaptionsClosedStep(d, cid, code).world.timers == f.world.timers
      && CaptionsClosedStep(d, cid, code).world.pending == d.world.pending
  {
    CloseAfterCap(MaxReconnectAttempts, code);
  }

  /** After `disconnect`, no retry that is still scheduled reconnects: the
      timers `disconnect` cleared cannot fire, and one it could not clear
      (its field had been overwritten) finds the room and handlers gone. */
  lemma DisconnectStopsRetries(f: Fields, t: nat, created: bool)
    requires Consistent(f) && t < |f.world.timers|
    ensures var d := DisconnectStep(f);
      && (t !in Named(f.signalingReconnectTimer) + Named(f.captionsReconnectTimer) ==> (t in d.world.pending <==> t in f.world.pending))
      && FireTimerStep(d, t, created).world.signalingSockets == d.world.signalingSockets
      && FireTimerStep(d, t, created).world.captionsSockets == d.world.captionsSockets
      && FireTimerStep(d, t, created).signalingWs == None && FireTimerStep(d, t, created).captionsWs == None
  {
  }

  /** An open resets the backoff: the next abnormal close of that socket
      waits the base delay again, whatever the counter was. */
  lemma OpenResetsBackoff(f: Fields, id: nat, code: int)
    requires id < |f.world.signalingSockets| && code != NormalClosure
    ensures var g := SignalingClosedStep(SignalingOpenedStep(f, id), id, code);
      && g.reconnectAttempts == 1
      && g.world.timers == f.world.timers + [SignalingRetry(ReconnectDelay)]
      && g.signalingReconnectTimer == Some(|f.world.timers|)
  {
  }

  class WebSocketManager {
    var signalingWs: Option<nat>
    var captionsWs: Option<nat>
    /** The one counter both channels read. */
    var reconnectAttempts: nat
    var signalingReconnectTimer: Option<nat>
    var captionsReconnectTimer: Option<nat>
    var currentRoomId: RoomId
    /** Whether `signalingMessageHandler` and `captionMessageHandler` are set. */
    var hasSignalingHandler: bool
    var hasCaptionHandler: bool
    /** The sockets, timers and owner callbacks the manager acts on. */
    var world: World

    ghost function State(): Fields
      reads this
    {
      Fields(signalingWs, captionsWs, reconnectAttempts, signalingReconnectTimer, captionsReconnectTimer,
             currentRoomId, hasSignalingHandler, hasCaptionHandler, world)
    }

    ghost predicate Valid()
      reads this
    {
      Consistent(State())
    }

    constructor ()
      ensures State() == Fields(None, None, 0, None, None, "", false, false, World([], [], [], {}, [], [], [], []))
      ensures Valid()
    {
      signalingWs, captionsWs, reconnectAttempts := None, None, 0;
      signalingReconnectTimer, captionsReconnectTimer := None, None;
      currentRoomId, hasSignalingHandler, hasCaptionHandler := "", false, false;
      world := World([], [], [], {}, [], [], [], []);
    }

    /** `isConnected()`: the current signaling socket exists and is open. */
    predicate IsConnected()
      reads this
      ensures IsConnected() ==>
        && signalingWs.Some? && signalingWs.value < |world.signalingSockets|
        && world.signalingSockets[signalingWs.value].state == ReadyState.Open
    {
      OpenCurrent(world.signalingSockets, signalingWs)
    }

    /** `sendSignaling(message)`: sent when the socket is open, dropped otherwise. */
    method SendSignaling(msg: Message)
      requires Valid()
      modifies this
      ensures State() == SendSignalingStep(old(State()), msg)
      ensures Valid()
    {
      if signalingWs.Some? && world.signalingSockets[signalingWs.value].state == ReadyState.Open {
        var socks, i := world.signalingSockets, signalingWs.value;
        world := world.(signalingSockets := socks[i := socks[i].(sent := socks[i].sent + [msg])]);
      }
    }

    method ConnectSignaling(roomId: RoomId, created: bool)
      requires Valid()
      modifies this
      ensures State() == ConnectSignalingStep(old(State()), roomId, created)
      ensures Valid()
    {
      currentRoomId, hasSignalingHandler := roomId, true;
      var w := world.(pending := world.pending - Named(signalingReconnectTimer));
      signalingReconnectTimer := None;
      w := w.(statuses := w.statuses + [Status.Connecting]);
      if created {
        signalingWs := Some(|w.signalingSockets|);
        w := w.(signalingSockets := w.signalingSockets + [Sock(roomId, ReadyState.Connecting, [])]);
      } else {
        w := w.(errors := w.errors + [FailedToEstablish]);
      }
      world := w;
    }

    method SignalingOpened(id: nat)
      requires Valid() && id < |world.signalingSockets| && world.signalingSockets[id].state == ReadyState.Connecting
      modifies this
      ensures State() == SignalingOpenedStep(old(State()), id)
      ensures Valid()
    {
      var socks := world.signalingSockets;
      world := world.(signalingSockets := socks[id := socks[id].(state := ReadyState.Open)]);
      reconnectAttempts := 0;
      world := world.(statuses := world.statuses + [Status.Connected]);
      SendSignaling(JoinRoomMsg(socks[id].roomId));
    }

    /** `onmessage` of signaling socket `id`: `parsed` is None when the frame is
        not valid JSON, which is only logged; otherwise the message goes to the
        handler captured when the socket was made, even if the field has since
        been cleared. */
    method SignalingMessage(id: nat, parsed: Option<Message>)
      requires Valid() && id < |world.signalingSockets| && world.signalingSockets[id].state == ReadyState.Open
      modifies this
      ensures State() == old(State()).(world := old(world).(delivered := old(world.delivered) + if parsed.Some? then [parsed.value] else []))
      ensures Valid()
    {
      if parsed.Some? {
        world := world.(delivered := world.delivered + [parsed.value]);
      }
    }

    /** `onerror` of a signaling socket: the owner is told the server could not be reached. */
    method SignalingErrored(id: nat)
      requires Valid() && id < |world.signalingSockets|
      modifies this
      ensures State() == old(State()).(world := old(world).(errors := old(world.errors) + [FailedToConnect]))
      ensures Valid()
    {
      world := world.(errors := world.errors + [FailedToConnect]);
    }

    method SignalingClosed(id: nat, code: int)
      requires Valid() && id < |world.signalingSockets| && world.signalingSockets[id].state != ReadyState.Closed
      modifies this
      ensures State() == SignalingClosedStep(old(State()), id, code)
      ensures Valid()
    {
      var socks := world.signalingSockets;
      var w := world.(signalingSockets := socks[id := socks[id].(state := ReadyState.Closed)],
                      statuses := world.statuses + [Status.Disconnected]);
      if code != NormalClosure && reconnectAttempts < MaxReconnectAttempts {
        reconnectAttempts := reconnectAttempts + 1;
        signalingReconnectTimer := Some(|w.timers|);
        w := w.(timers := w.timers + [SignalingRetry(ReconnectDelay * reconnectAttempts)], pending := w.pending + {|w.timers|});
      } else if reconnectAttempts >= MaxReconnectAttempts {
        w := w.(errors := w.errors + [LostConnection]);
      }
      world := w;
    }

    method ConnectCaptions(roomId: RoomId, created: bool)
      requires Valid()
      modifies this
      ensures State() == ConnectCaptionsStep(old(State()), roomId, created)
      ensures Valid()
    {
      hasCaptionHandler := true;
      var w := world.(pending := world.pending - Named(captionsReconnectTimer));
      captionsReconnectTimer := None;
      if created {
        captionsWs := Some(|w.captionsSockets|);
        w := w.(captionsSockets := w.captionsSockets + [Sock(roomId, ReadyState.Connecting, [])]);
      }
      world := w;
    }

    /** `onopen` of a captions socket: only logged. */
    method CaptionsOpened(id: nat)
      requires Valid() && id < |world.captionsSockets| && world.captionsSockets[id].state == ReadyState.Connecting
      modifies this
      ensures State() == old(State()).(world := old(world).(captionsSockets := old(world.captionsSockets)[id := old(world.captionsSockets[id]).(state := ReadyState.Open)]))
      ensures Valid()
    {
      var socks := world.captionsSockets;
      world := world.(captionsSockets := socks[id := socks[id].(state := ReadyState.Open)]);
    }

    /** `onmessage` of a captions socket: a parsed caption goes to the captured handler. */
    method CaptionsMessage(id: nat, parsed: Option<Caption>)
      requires Valid() && id < |world.captionsSockets| && world.captionsSockets[id].state == ReadyState.Open
      modifies this
      ensures State() == old(State()).(world := old(world).(captions := old(world.captions) + if parsed.Some? then [parsed.value] else []))
      ensures Valid()
    {
      if parsed.Some? {
        world := world.(captions := world.captions + [parsed.value]);
      }
    }

    method CaptionsClosed(id: nat, code: int)
      requires Valid() && id < |world.captionsSockets| && world.captionsSockets[id].state != ReadyState.Closed
      modifies this
      ensures State() == CaptionsClosedStep(old(State()), id, code)
      ensures Valid()
    {
      var socks := world.captionsSockets;
      var w := world.(captionsSockets := socks[id := socks[id].(state := ReadyState.Closed)]);
      if code != NormalClosure && reconnectAttempts < MaxReconnectAttempts {
        captionsReconnectTimer := Some(|w.timers|);
        w := w.(timers := w.timers + [CaptionsRetry(ReconnectDelay, socks[id].roomId)], pending := w.pending + {|w.timers|});
      }
      world := w;
    }

    method FireTimer(t: nat, created: bool)
      requires Valid() && t in world.pending
      modifies this
      ensures State() == FireTimerStep(old(State()), t, created)
      ensures Valid()
    {
      world := world.(pending := world.pending - {t});
      match world.timers[t]
      case SignalingRetry(_) =>
        if currentRoomId != "" && hasSignalingHandler {
          ConnectSignaling(currentRoomId, created);
        }
      case CaptionsRetry(_, roomId) =>
        if roomId != "" && hasCaptionHandler {
          ConnectCaptions(roomId, created);
        }
    }

    method Disconnect()
      requires Valid()
      modifies this
      ensures State() == DisconnectStep(old(State()))
      ensures Valid()
    {
      var w := world.(pending := world.pending - Named(signalingReconnectTimer) - Named(captionsReconnectTimer));
      signalingReconnectTimer, captionsReconnectTimer := None, None;
      reconnectAttempts := MaxReconnectAttempts;
      w := w.(signalingSockets := CloseCurrent(w.signalingSockets, signalingWs),
              captionsSockets := CloseCurrent(w.captionsSockets, captionsWs));
      signalingWs, captionsWs := None, None;
      hasSignalingHandler, hasCaptionHandler, currentRoomId := false, false, "";
      world := w;
    }
  }

  /** The user leaves an open call: the signaling socket for "abc" is open,
      `disconnect` runs, and the socket's normal close arrives. The close still
      reaches the lost-connection branch, because the counter sits at its cap,
      and no reconnect is pending. */
  method DisconnectThenNormalClose() returns (errors: seq<ConnectionError>, statuses: seq<Status>, pendingAtEnd: set<nat>)
    ensures errors == [LostConnection]
    ensures statuses == [Status.Connecting, Status.Connected, Status.Disconnected]
    ensures pendingAtEnd == {}
  {
    var m := new WebSocketManager();
    m.ConnectSignaling("abc", true);
    m.SignalingOpened(0);
    m.Disconnect();
    CloseAfterCap(m.reconnectAttempts, NormalClosure);
    m.SignalingClosed(0, NormalClosure);
    errors, statuses, pendingAtEnd := m.world.errors, m.world.statuses, m.world.pending;
  }
}
