/** The call screen of src/components/VideoCall.tsx: the state updaters it
    passes to React (the caption history, the list of remote peers, the grid
    layout) and the dispatcher that turns inbound signaling messages into
    registry calls and outbound messages. */
module VideoCall {
  import opened Wire
  import opened PeerRegistry
  import opened KeyOrder
  import Transport

  // ---------------------------------------------------------------------
  // The caption history

  /** `MAX_CAPTIONS` */
  const MaxCaptions: nat := 100

  /** `s.slice(-n)` for a positive `n`: the last `n` elements, or all of them
      when there are fewer. */
  function LastN<T>(s: seq<T>, n: nat): (r: seq<T>)
    ensures |r| == if |s| <= n then |s| else n
    ensures r == s[|s| - |r|..]
  {
    if |s| <= n then s else s[|s| - n..]
  }

  /** The `setCaptions` updater of `handleCaption`: the new caption goes last
      and only the newest `MaxCaptions` entries are kept. */
  function AppendCaption(prev: seq<Caption>, c: Caption): (r: seq<Caption>)
    ensures |r| == if |prev| < MaxCaptions then |prev| + 1 else MaxCaptions
    ensures r[|r| - 1] == c
    ensures r == (prev + [c])[|prev| + 1 - |r|..]
  {
    var next := prev + [c];
    if |next| > MaxCaptions then next[|next| - MaxCaptions..] else next
  }

  /** The history after the updater has run once per caption of `cs`, in order. */
  function Captioned(prev: seq<Caption>, cs: seq<Caption>): seq<Caption>
    decreases |cs|
  {
    if cs == [] then prev else AppendCaption(Captioned(prev, cs[..|cs| - 1]), cs[|cs| - 1])
  }

  /** Keeping the last `n` and then appending and keeping the last `n` again
      is keeping the last `n` of the whole. */
  lemma LastNSnoc<T>(s: seq<T>, x: T, n: nat)
    requires n > 0
    ensures LastN(LastN(s, n) + [x], n) == LastN(s + [x], n)
  {
    var l := LastN(s, n);
    var a, b := LastN(l + [x], n), LastN(s + [x], n);
    assert |a| == |b|;
    forall i | 0 <= i < |a|
      ensures a[i] == b[i]
    {
      if i < |a| - 1 {
        assert a[i] == l[|l| + 1 - |a| + i];
        assert l[|l| + 1 - |a| + i] == s[|s| - |l| + |l| + 1 - |a| + i];
      }
    }
  }

  /** However many captions arrive, the history (which starts no longer
      than the cap) is exactly the newest `MaxCaptions` of everything
      received, in arrival order. */
  lemma {:induction false} CaptionHistory(prev: seq<Caption>, cs: seq<Caption>)
    requires |prev| <= MaxCaptions
    ensures Captioned(prev, cs) == LastN(prev + cs, MaxCaptions)
    decreases |cs|
  {
    if cs == [] {
      assert prev + cs == prev;
    } else {
      var init, c := cs[..|cs| - 1], cs[|cs| - 1];
      CaptionHistory(prev, init);
      LastNSnoc(prev + init, c, MaxCaptions);
      assert prev + init + [c] == prev + cs;
    }
  }

  // ---------------------------------------------------------------------
  // The list of remote peers

  /** An entry of `remotePeers`: a peer and the stream shown for it. */
  datatype RemotePeer = RemotePeer(peerId: PeerId, stream: Option<Stream>)

  /** At most one entry per peer id. */
  predicate OnePerPeer(ps: seq<RemotePeer>) {
    forall i, j | 0 <= i < j < |ps| :: ps[i].peerId != ps[j].peerId
  }

  /** `prev.filter(p => p.peerId !== pId)` */
  function Without(ps: seq<RemotePeer>, p: PeerId): (r: seq<RemotePeer>)
    ensures forall q :: q in r <==> q in ps && q.peerId != p
    ensures |r| <= |ps|
    decreases |ps|
  {
    if ps == [] then []
    else (if ps[0].peerId == p then [] else [ps[0]]) + Without(ps[1..], p)
  }

  /** Filtering a concatenation filters each part. */
  lemma {:induction false} WithoutAppend(a: seq<RemotePeer>, b: seq<RemotePeer>, p: PeerId)
    ensures Without(a + b, p) == Without(a, p) + Without(b, p)
    decreases |a|
  {
    if a == [] {
      assert a + b == b;
    } else {
      assert (a + b)[0] == a[0] && (a + b)[1..] == a[1..] + b;
      WithoutAppend(a[1..], b, p);
    }
  }

  /** Filtering keeps the remaining entries' order, so it keeps them apart. */
  lemma {:induction false} WithoutOnePerPeer(ps: seq<RemotePeer>, p: PeerId)
    requires OnePerPeer(ps)
    ensures OnePerPeer(Without(ps, p))
    decreases |ps|
  {
    if ps != [] {
      var rest := Without(ps[1..], p);
      WithoutOnePerPeer(ps[1..], p);
      if ps[0].peerId != p {
        forall q | q in rest
          ensures q.peerId != ps[0].peerId
        {
          var k :| 0 <= k < |ps[1..]| && ps[1..][k] == q;
          assert ps[k + 1] == q;
        }
      }
    }
  }

  /** The `prev.map(...)` of the stream updater: every entry for `p` shows
      the new stream, every other entry is kept. */
  function Restream(ps: seq<RemotePeer>, p: PeerId, s: Stream): (r: seq<RemotePeer>)
    ensures |r| == |ps|
    ensures forall i | 0 <= i < |ps| ::
      r[i] == if ps[i].peerId == p then RemotePeer(p, Some(s)) else ps[i]
    ensures Without(r, p) == Without(ps, p)
    decreases |ps|
  {
    if ps == [] then []
    else
      var rest := Restream(ps[1..], p, s);
      assert forall i | 1 <= i < |ps| :: ps[i] == ps[1..][i - 1];
      [if ps[0].peerId == p then RemotePeer(p, Some(s)) else ps[0]] + rest
  }

  /** Whether some entry is for `p`: the `prev.find(...)` of the updater. */
  predicate Shows(ps: seq<RemotePeer>, p: PeerId) {
    exists i | 0 <= i < |ps| :: ps[i].peerId == p
  }

  /** The `setRemotePeers` updater run by `onTrack`: an entry for the peer
      gets the stream in place; without one, a new entry goes last. */
  function WithStream(ps: seq<RemotePeer>, p: PeerId, s: Stream): (r: seq<RemotePeer>)
    ensures RemotePeer(p, Some(s)) in r
    ensures forall q | q in r && q.peerId == p :: q.stream == Some(s)
    ensures Without(r, p) == Without(ps, p)
    ensures |r| == if Shows(ps, p) then |ps| else |ps| + 1
    ensures OnePerPeer(ps) ==> OnePerPeer(r)
  {
    if Shows(ps, p) then
      Restream(ps, p, s)
    else
      var r := ps + [RemotePeer(p, Some(s))];
      WithoutAppend(ps, [RemotePeer(p, Some(s))], p);
      assert Without([RemotePeer(p, Some(s))], p) == [];
      r
  }

  // ---------------------------------------------------------------------
  // The grid layout

  /** The five Tailwind layouts of the video grid. */
  datatype Grid = OneColumn | TwoFromMedium | TwoColumns | ThreeFromMedium | FourFromLarge

  /** The `className` text of each layout: its first class gives the
      columns on the narrowest screen, its last the columns on the widest. */
  function ClassName(g: Grid): (s: string)
    ensures |s| >= 11 && s[..10] == "grid-cols-" && s[10] == "0123456789"[Narrowest(g)]
    ensures s[|s| - 1] == "0123456789"[Widest(g)]
  {
    match g
    case OneColumn => "grid-cols-1"
    case TwoFromMedium => "grid-cols-1 md:grid-cols-2"
    case TwoColumns => "grid-cols-2"
    case ThreeFromMedium => "grid-cols-2 md:grid-cols-3"
    case FourFromLarge => "grid-cols-2 md:grid-cols-3 lg:grid-cols-4"
  }

  /** Columns on the narrowest screen. */
  function Narrowest(g: Grid): nat {
    match g
    case OneColumn | TwoFromMedium => 1
    case _ => 2
  }

  /** Columns on the widest screen. */
  function Widest(g: Grid): nat {
    match g
    case OneColumn => 1
    case TwoFromMedium | TwoColumns => 2
    case ThreeFromMedium => 3
    case FourFromLarge => 4
  }

  /** `gridCols` for `total` participants (the local one included). On the
      widest screen there are never more columns than tiles, and up to eight
      participants fit in two rows. */
  function GridCols(total: int): (g: Grid)
    ensures total >= 1 ==> Narrowest(g) <= Widest(g) <= total
    ensures 1 <= total <= 8 ==> total <= 2 * Widest(g)
  {
    if total == 1 then OneColumn
    else if total == 2 then TwoFromMedium
    else if total <= 4 then TwoColumns
    else if total <= 6 then ThreeFromMedium
    else FourFromLarge
  }

  /** More participants never means fewer columns, on any screen. */
  lemma GridWidens(a: int, b: int)
    requires 1 <= a <= b
    ensures Narrowest(GridCols(a)) <= Narrowest(GridCols(b))
    ensures Widest(GridCols(a)) <= Widest(GridCols(b))
  {
  }

  // ---------------------------------------------------------------------
  // The call

  /** The toasts the call shows. */
  datatype Toast =
    | ParticipantJoined   // 'Participant joined'
    | ParticipantLeft     // 'Participant left'
    | ConnectionFailed    // 'Connection error': a handler threw

  /** Every tile shown has a registry entry holding the same stream. */
  predicate ShownRegistered(ps: seq<RemotePeer>, peers: map<PeerId, PeerData>) {
    forall q | q in ps :: q.peerId in peers && peers[q.peerId].stream == q.stream
  }

  /** Showing a stream on a peer's tile after the registry recorded it for
      that peer keeps every tile matched with its entry. */
  lemma TrackKeepsShown(ps: seq<RemotePeer>, peers: map<PeerId, PeerData>, p: PeerId, s: Stream, entry: PeerData)
    requires ShownRegistered(ps, peers) && entry.stream == Some(s)
    ensures ShownRegistered(WithStream(ps, p, s), peers[p := entry])
  {
    var r := WithStream(ps, p, s);
    forall q | q in r && q.peerId != p
      ensures q in ps
    {
      assert q in Without(r, p);
    }
  }

  /** A message the dispatcher drops before touching anything: one without a
      usable peer id (unless it is `room-peers`, which changes nothing
      either), or of a type the `switch` has no case for. */
  predicate Ignored(msg: Message) {
    !Truthy(msg.peerId)
    || !(msg.kind.PeerJoined? || msg.kind.Offer? || msg.kind.Answer? || msg.kind.IceCandidate? || msg.kind.PeerLeft?)
  }

  /** What the browser does with the calls one signaling message makes: the
      offer or answer it generates, whether it takes a generated description
      as the local one, whether it takes a received description as the
      remote one, and whether it takes a received candidate. */
  datatype Browser = Browser(offer: Payload, answer: Payload, takesLocal: bool, takesRemote: bool, takesCandidate: bool)

  /** The component's state and the two managers it keeps in refs. The
      handlers given to the managers are this class's methods: the same
      callbacks are passed for every peer, each closing over the room id. */
  class Call {
    const roomId: RoomId
    const rtc: WebRTCManager
    const ws: Transport.WebSocketManager
    var remotePeers: seq<RemotePeer>
    var captions: seq<Caption>
    var status: Transport.Status
    var toasts: seq<Toast>

    ghost predicate Valid()
      reads this, rtc, ws
    {
      && rtc.Valid() && ws.Valid()
      && OnePerPeer(remotePeers) && ShownRegistered(remotePeers, rtc.peerConnections)
      && |captions| <= MaxCaptions
    }

    constructor (roomId: RoomId)
      ensures Valid() && fresh(rtc) && fresh(ws)
      ensures this.roomId == roomId && rtc.peerConnections == map[]
      ensures remotePeers == [] && captions == [] && status == Transport.Status.Connecting && toasts == []
    {
      this.roomId := roomId;
      rtc := new WebRTCManager();
      ws := new Transport.WebSocketManager();
      remotePeers, captions, status, toasts := [], [], Transport.Status.Connecting, [];
    }

    /** The `peer-joined` case: make (or reuse) the connection and send one
        offer to the peer. `offer` is the description the browser generates
        and `accepted` whether it takes it as the local description. */
    method PeerJoinedCase(p: PeerId, offer: Payload, accepted: bool)
      requires Valid()
      modifies this, rtc, ws
      ensures Valid()
      ensures old(p in rtc.peerConnections) ==>
        rtc.peerConnections == old(rtc.peerConnections) && rtc.order == old(rtc.order)
      ensures old(p !in rtc.peerConnections) ==>
        && rtc.peerConnections == old(rtc.peerConnections)[p := PeerData(old(|rtc.connections|), None, p)]
        && rtc.order == old(rtc.order) + [p]
      ensures rtc.localStream == old(rtc.localStream) && rtc.stopped == old(rtc.stopped)
      ensures var base := Ensured(old(rtc.connections), old(rtc.peerConnections), p, rtc.localStream);
        var c := rtc.peerConnections[p].connection;
        && |rtc.connections| == |base|
        && if old(Usable(rtc.peerConnections, rtc.connections, p)) && accepted then
             && rtc.connections == base[c := base[c].(localDescription := Some(offer))]
             && ws.State() == Transport.SendSignalingStep(old(ws.State()), DirectedMsg(Offer, roomId, p, offer))
             && toasts == old(toasts) + [ParticipantJoined]
           else
             && rtc.connections == base
             && ws.State() == old(ws.State()) && toasts == old(toasts) + [ParticipantJoined, ConnectionFailed]
      ensures remotePeers == old(remotePeers) && captions == old(captions) && status == old(status)
    {
      toasts := toasts + [ParticipantJoined];
      var c := rtc.CreatePeerConnection(p);
      var r := rtc.CreateDescription(p, offer, accepted);
      if r.Failure? {
        toasts := toasts + [ConnectionFailed];
        return;
      }
      ws.SendSignaling(DirectedMsg(Offer, roomId, p, r.value));
    }

    /** The guard of the `offer` case: a connection is made only when
        `getAllPeers()` has no entry for the sender. */
    method EnsureConnection(p: PeerId)
      requires Valid()
      modifies rtc
      ensures Valid()
      ensures rtc.connections == Ensured(old(rtc.connections), old(rtc.peerConnections), p, rtc.localStream)
      ensures old(p in rtc.peerConnections) ==>
        rtc.peerConnections == old(rtc.peerConnections) && rtc.order == old(rtc.order)
      ensures old(p !in rtc.peerConnections) ==>
        && rtc.peerConnections == old(rtc.peerConnections)[p := PeerData(old(|rtc.connections|), None, p)]
        && rtc.order == old(rtc.order) + [p]
      ensures rtc.localStream == old(rtc.localStream) && rtc.stopped == old(rtc.stopped)
    {
      FindRegistered(rtc.peerConnections, rtc.order, rtc.connections, p);
      if FindPeer(rtc.GetAllPeers(), p).None? {
        var _ := rtc.CreatePeerConnection(p);
      }
    }

    /** The `offer` case: make a connection only when `getAllPeers()` has no
        entry for the sender, apply the offer, and send one answer back.
        `answer` is the description the browser generates; `remoteAccepted`
        and `answerAccepted` say whether it takes the offer and the answer. */
    method OfferCase(p: PeerId, data: Option<Payload>, answer: Payload, remoteAccepted: bool, answerAccepted: bool)
      requires Valid()
      modifies this, rtc, ws
      ensures Valid()
      ensures old(p in rtc.peerConnections) ==>
        rtc.peerConnections == old(rtc.peerConnections) && rtc.order == old(rtc.order)
      ensures old(p !in rtc.peerConnections) ==>
        && rtc.peerConnections == old(rtc.peerConnections)[p := PeerData(old(|rtc.connections|), None, p)]
        && rtc.order == old(rtc.order) + [p]
      ensures rtc.localStream == old(rtc.localStream) && rtc.stopped == old(rtc.stopped)
      ensures var base := Ensured(old(rtc.connections), old(rtc.peerConnections), p, rtc.localStream);
        var c := rtc.peerConnections[p].connection;
        && |rtc.connections| == |base|
        && if !(old(Usable(rtc.peerConnections, rtc.connections, p)) && data.Some? && remoteAccepted) then
             && rtc.connections == base
             && ws.State() == old(ws.State()) && toasts == old(toasts) + [ConnectionFailed]
           else if !answerAccepted then
             && rtc.connections == base[c := base[c].(remoteDescription := data)]
             && ws.State() == old(ws.State()) && toasts == old(toasts) + [ConnectionFailed]
           else
             && rtc.connections == base[c := base[c].(remoteDescription := data, localDescription := Some(answer))]
             && ws.State() == Transport.SendSignalingStep(old(ws.State()), DirectedMsg(Answer, roomId, p, answer))
             && toasts == old(toasts)
      ensures remotePeers == old(remotePeers) && captions == old(captions) && status == old(status)
    {
      EnsureConnection(p);
      AnswerOffer(p, data, answer, remoteAccepted, answerAccepted);
    }

    /** The rest of the `offer` case, once the sender has an entry: apply the
        offer, generate the answer and send it. */
    method AnswerOffer(p: PeerId, data: Option<Payload>, answer: Payload, remoteAccepted: bool, answerAccepted: bool)
      requires Valid() && p in rtc.peerConnections
      modifies this, rtc, ws
      ensures Valid()
      ensures rtc.peerConnections == old(rtc.peerConnections) && rtc.order == old(rtc.order)
      ensures rtc.localStream == old(rtc.localStream) && rtc.stopped == old(rtc.stopped)
      ensures var c := old(rtc.peerConnections[p].connection);
        if !(old(Live(rtc.peerConnections, rtc.connections, p)) && data.Some? && remoteAccepted) then
          && rtc.connections == old(rtc.connections)
          && ws.State() == old(ws.State()) && toasts == old(toasts) + [ConnectionFailed]
        else if !answerAccepted then
          && rtc.connections == old(rtc.connections)[c := old(rtc.connections[c]).(remoteDescription := data)]
          && ws.State() == old(ws.State()) && toasts == old(toasts) + [ConnectionFailed]
        else
          && rtc.connections
             == old(rtc.connections)[c := old(rtc.connections[c]).(remoteDescription := data, localDescription := Some(answer))]
          && ws.State() == Transport.SendSignalingStep(old(ws.State()), DirectedMsg(Answer, roomId, p, answer))
          && toasts == old(toasts)
      ensures remotePeers == old(remotePeers) && captions == old(captions) && status == old(status)
    {
      var applied := rtc.SetRemoteDescription(p, data, remoteAccepted);
      if applied.Failure? {
        toasts := toasts + [ConnectionFailed];
        return;
      }
      var r := rtc.CreateDescription(p, answer, answerAccepted);
      if r.Failure? {
        toasts := toasts + [ConnectionFailed];
        return;
      }
      ws.SendSignaling(DirectedMsg(Answer, roomId, p, r.value));
    }

    /** The `answer` case: apply it to the existing entry; nothing is sent.
        `accepted` is whether the browser takes it as the remote description. */
    method AnswerCase(p: PeerId, data: Option<Payload>, accepted: bool)
      requires Valid()
      modifies this, rtc
      ensures Valid()
      ensures rtc.peerConnections == old(rtc.peerConnections) && rtc.order == old(rtc.order)
      ensures rtc.localStream == old(rtc.localStream) && rtc.stopped == old(rtc.stopped)
      ensures
        if old(Live(rtc.peerConnections, rtc.connections, p)) && data.Some? && accepted then
          var c := old(rtc.peerConnections[p].connection);
          && rtc.connections == old(rtc.connections)[c := old(rtc.connections[c]).(remoteDescription := data)]
          && toasts == old(toasts)
        else
          rtc.connections == old(rtc.connections) && toasts == old(toasts) + [ConnectionFailed]
      ensures remotePeers == old(remotePeers) && captions == old(captions) && status == old(status)
    {
      var applied := rtc.SetRemoteDescription(p, data, accepted);
      if applied.Failure? {
        toasts := toasts + [ConnectionFailed];
      }
    }

    /** The `ice-candidate` case: apply it to the existing entry; nothing is
        sent and nothing is reported. A message without data makes the
        candidate constructor throw inside `addIceCandidate`'s own `try`. */
    method IceCandidateCase(p: PeerId, data: Option<Payload>, accepted: bool)
      requires Valid()
      modifies rtc
      ensures Valid()
      ensures rtc.peerConnections == old(rtc.peerConnections) && rtc.order == old(rtc.order)
      ensures rtc.localStream == old(rtc.localStream) && rtc.stopped == old(rtc.stopped)
      ensures
        if old(Live(rtc.peerConnections, rtc.connections, p)) && data.Some? && accepted then
          var c := old(rtc.peerConnections[p].connection);
          rtc.connections == old(rtc.connections)[c := old(rtc.connections[c]).(candidates := old(rtc.connections[c].candidates) + [data.value])]
        else
          rtc.connections == old(rtc.connections)
    {
      if data.Some? {
        rtc.AddIceCandidate(p, data.value, accepted);
      }
    }

    /** The `peer-left` case: close the peer's connection, drop it from the
        registry and from the tiles. */
    method PeerLeftCase(p: PeerId)
      requires Valid()
      modifies this, rtc
      ensures Valid()
      ensures rtc.peerConnections == old(rtc.peerConnections) - {p} && rtc.order == Unregister(old(rtc.order), p)
      ensures old(p in rtc.peerConnections) ==>
        var c := old(rtc.peerConnections[p].connection);
        rtc.connections == old(rtc.connections)[c := old(rtc.connections[c]).(closed := true)]
      ensures old(p !in rtc.peerConnections) ==> rtc.connections == old(rtc.connections)
      ensures rtc.localStream == old(rtc.localStream) && rtc.stopped == old(rtc.stopped)
      ensures remotePeers == Without(old(remotePeers), p)
      ensures toasts == old(toasts) + [ParticipantLeft]
      ensures captions == old(captions) && status == old(status)
    {
      rtc.RemovePeer(p);
      WithoutOnePerPeer(remotePeers, p);
      remotePeers := Without(remotePeers, p);
      toasts := toasts + [ParticipantLeft];
    }

    /** `handleSignalingMessage(message)`: what the browser generates and
        whether it accepts each call are in `b`. A registry call that throws
        ends the case with a `Connection error` toast; nothing propagates. */
    method HandleSignalingMessage(msg: Message, b: Browser)
      requires Valid()
      modifies this, rtc, ws
      ensures Valid()
      ensures Ignored(msg) ==> unchanged(this, rtc, ws)
      ensures !(msg.kind.PeerJoined? || msg.kind.Offer?) ==> unchanged(ws)
      ensures !Ignored(msg) && msg.kind.PeerJoined? ==>
        var p := msg.peerId.value;
        && p in rtc.peerConnections
        && if old(Usable(rtc.peerConnections, rtc.connections, p)) && b.takesLocal then
             && ws.State() == Transport.SendSignalingStep(old(ws.State()), DirectedMsg(Offer, roomId, p, b.offer))
             && toasts == old(toasts) + [ParticipantJoined]
           else ws.State() == old(ws.State()) && toasts == old(toasts) + [ParticipantJoined, ConnectionFailed]
      ensures !Ignored(msg) && msg.kind.Offer? ==>
        var p := msg.peerId.value;
        && p in rtc.peerConnections
        && if old(Usable(rtc.peerConnections, rtc.connections, p)) && msg.data.Some? && b.takesRemote && b.takesLocal then
             && ws.State() == Transport.SendSignalingStep(old(ws.State()), DirectedMsg(Answer, roomId, p, b.answer))
             && toasts == old(toasts)
           else ws.State() == old(ws.State()) && toasts == old(toasts) + [ConnectionFailed]
      ensures !Ignored(msg) && msg.kind.Answer? ==>
        toasts == old(toasts) + if old(Live(rtc.peerConnections, rtc.connections, msg.peerId.value)) && msg.data.Some? && b.takesRemote
                                then [] else [ConnectionFailed]
      ensures msg.kind.Answer? || msg.kind.IceCandidate? ==> rtc.peerConnections == old(rtc.peerConnections)
      ensures msg.kind.IceCandidate? ==> toasts == old(toasts)
      ensures !Ignored(msg) && msg.kind.PeerLeft? ==>
        && msg.peerId.value !in rtc.peerConnections
        && remotePeers == Without(old(remotePeers), msg.peerId.value)
        && toasts == old(toasts) + [ParticipantLeft]
      ensures captions == old(captions) && status == old(status)
    {
      if Ignored(msg) {
        return;
      }
      var p := msg.peerId.value;
      match msg.kind
      case PeerJoined => PeerJoinedCase(p, b.offer, b.takesLocal);
      case Offer => OfferCase(p, msg.data, b.answer, b.takesRemote, b.takesLocal);
      case Answer => AnswerCase(p, msg.data, b.takesRemote);
      case IceCandidate => IceCandidateCase(p, msg.data, b.takesCandidate);
      case PeerLeft => PeerLeftCase(p);
    }

    /** The `onIceCandidate` callback of connection `c`: a gathered candidate
        is sent to the peer the connection was made for. */
    method IceGathered(c: ConnId, candidate: Option<Payload>)
      requires Valid() && c < |rtc.connections|
      modifies ws
      ensures Valid()
      ensures candidate.Some? ==>
        ws.State() == Transport.SendSignalingStep(old(ws.State()), DirectedMsg(IceCandidate, roomId, rtc.connections[c].peerId, candidate.value))
      ensures candidate.None? ==> ws.State() == old(ws.State())
    {
      if candidate.Some? {
        ws.SendSignaling(DirectedMsg(IceCandidate, roomId, rtc.connections[c].peerId, candidate.value));
      }
    }

    /** `ontrack` of connection `c`: the registry records the stream, then the
        `onTrack` callback shows it on the peer's tile. */
    method TrackReceived(c: ConnId, s: Stream)
      requires Valid() && c < |rtc.connections|
      modifies this, rtc
      ensures Valid()
      ensures rtc.connections == old(rtc.connections)
      ensures rtc.localStream == old(rtc.localStream) && rtc.stopped == old(rtc.stopped)
      ensures var p := rtc.connections[c].peerId;
        && rtc.peerConnections == old(rtc.peerConnections)[p :=
             if p in old(rtc.peerConnections) then old(rtc.peerConnections[p]).(stream := Some(s))
             else PeerData(c, Some(s), p)]
        && rtc.order == Register(old(rtc.order), p)
        && remotePeers == WithStream(old(remotePeers), p, s)
      ensures toasts == old(toasts) && captions == old(captions) && status == old(status)
    {
      var p := rtc.connections[c].peerId;
      var shown := WithStream(remotePeers, p, s);
      rtc.Track(c, s);
      TrackKeepsShown(remotePeers, old(rtc.peerConnections), p, s, rtc.peerConnections[p]);
      remotePeers := shown;
    }

    /** `onconnectionstatechange` of connection `c`: first the owner's
        callback (`connected` sets the status; `failed` and `closed` drop
        the tile), then the registry drops a failed or closed peer. */
    method ConnectionStateChanged(c: ConnId, state: ConnectionState)
      requires Valid() && c < |rtc.connections|
      modifies this, rtc
      ensures Valid()
      ensures status == if state == ConnectionState.Connected then Transport.Status.Connected else old(status)
      ensures |rtc.connections| == |old(rtc.connections)|
      ensures state in {Failed, Closed} ==>
        var p := old(rtc.connections[c].peerId);
        && remotePeers == Without(old(remotePeers), p)
        && rtc.peerConnections == old(rtc.peerConnections) - {p} && rtc.order == Unregister(old(rtc.order), p)
        && (old(p in rtc.peerConnections) ==>
              var k := old(rtc.peerConnections[p].connection);
              rtc.connections == old(rtc.connections)[k := old(rtc.connections[k]).(closed := true)])
        && (old(p !in rtc.peerConnections) ==> rtc.connections == old(rtc.connections))
      ensures state !in {Failed, Closed} ==>
        && remotePeers == old(remotePeers)
        && rtc.peerConnections == old(rtc.peerConnections) && rtc.order == old(rtc.order)
        && rtc.connections == old(rtc.connections)
      ensures rtc.localStream == old(rtc.localStream) && rtc.stopped == old(rtc.stopped)
      ensures toasts == old(toasts) && captions == old(captions)
    {
      var p := rtc.connections[c].peerId;
      if state == ConnectionState.Connected {
        status := Transport.Status.Connected;
      } else if state == Failed || state == Closed {
        WithoutOnePerPeer(remotePeers, p);
        remotePeers := Without(remotePeers, p);
      }
      rtc.ConnectionStateChanged(c, state);
    }

    /** `handleCaption(caption)` */
    method HandleCaption(caption: Caption)
      requires Valid()
      modifies this
      ensures Valid()
      ensures captions == AppendCaption(old(captions), caption)
      ensures remotePeers == old(remotePeers) && toasts == old(toasts) && status == old(status)
    {
      captions := AppendCaption(captions, caption);
    }

    /** `gridCols` for the local participant and the remote tiles. */
    function Layout(): (g: Grid)
      reads this
      ensures Widest(g) <= 1 + |remotePeers|
      ensures |remotePeers| < 8 ==> 1 + |remotePeers| <= 2 * Widest(g)
    {
      GridCols(1 + |remotePeers|)
    }
  }
}
