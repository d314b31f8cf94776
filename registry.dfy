/** The peer-connection registry of src/utils/webrtc.ts: the WebRTCManager's
    map from peer id to connection and remote stream, and the cached local
    stream. An RTCPeerConnection is an opaque handle: the model keeps the
    peer its callbacks captured, whether `close()` has been called, and what
    has been applied to it. Media capture and SDP generation happen in the
    browser; their results are parameters. */
module PeerRegistry {
  import opened Wire
  import opened KeyOrder

  /** An RTCPeerConnection, known by the order in which it was made. */
  type ConnId = nat

  /** A MediaStream, an opaque handle. */
  type Stream = nat

  /** What the model keeps of an RTCPeerConnection: the peer id its callbacks
      captured, whether it has been closed, the local stream whose tracks were
      added when it was made, the descriptions set on it, and the remote
      candidates applied to it. */
  datatype Conn = Conn(
    peerId: PeerId, closed: bool, localTracks: Option<Stream>,
    localDescription: Option<Payload>, remoteDescription: Option<Payload>, candidates: seq<Payload>)

  /** `PeerConnectionData`. */
  datatype PeerData = PeerData(connection: ConnId, stream: Option<Stream>, peerId: PeerId)

  /** `RTCPeerConnectionState`. */
  datatype ConnectionState = New | Connecting | Connected | Disconnected | Failed | Closed

  /** Why an operation throws. */
  datatype RegistryError =
    | NotInitialized(peerId: PeerId)   // 'Peer connection for <peerId> not initialized'
    | MediaAccessDenied                // 'Failed to access camera/microphone. ...'
    | Rejected                         // the browser refused the call

  datatype Result<+T> = Success(value: T) | Failure(error: RegistryError)

  /** The registry invariant: the key order lists each key of the map once;
      each entry names its own key and a connection made for that peer. */
  ghost predicate Table(peers: map<PeerId, PeerData>, order: seq<PeerId>, conns: seq<Conn>) {
    && Distinct(order)
    && (forall p :: p in order <==> p in peers)
    && (forall p | p in peers ::
          peers[p].peerId == p && peers[p].connection < |conns| && conns[peers[p].connection].peerId == p)
  }

  /** `Array.from(peerConnections.values())`: the entries in key order. */
  function Values(peers: map<PeerId, PeerData>, order: seq<PeerId>): (vs: seq<PeerData>)
    requires forall p | p in order :: p in peers
    ensures |vs| == |order| && forall i | 0 <= i < |order| :: vs[i] == peers[order[i]]
  {
    seq(|order|, i requires 0 <= i < |order| => peers[order[i]])
  }

  /** `peers.find(p => p.peerId === peerId)`: the first entry naming `p`. */
  function FindPeer(vs: seq<PeerData>, p: PeerId): (r: Option<PeerData>)
    ensures r.Some? ==> exists i | 0 <= i < |vs| :: vs[i] == r.value && vs[i].peerId == p && NoneBefore(vs, i, p)
    ensures r.None? ==> forall i | 0 <= i < |vs| :: vs[i].peerId != p
  {
    if vs == [] then None
    else if vs[0].peerId == p then Some(vs[0])
    else
      var rest := FindPeer(vs[1..], p);
      assert forall i | 1 <= i < |vs| :: vs[i] == vs[1..][i - 1];
      rest
  }

  /** No entry before index `i` names `p`. */
  predicate NoneBefore(vs: seq<PeerData>, i: nat, p: PeerId)
    requires i <= |vs|
  {
    forall j | 0 <= j < i :: vs[j].peerId != p
  }

  /** Looking a peer up among the values finds exactly the registered peers,
      and finds the entry the map holds for it. */
  lemma FindRegistered(peers: map<PeerId, PeerData>, order: seq<PeerId>, conns: seq<Conn>, p: PeerId)
    requires Table(peers, order, conns)
    ensures FindPeer(Values(peers, order), p).Some? <==> p in peers
    ensures p in peers ==> FindPeer(Values(peers, order), p) == Some(peers[p])
  {
    var vs := Values(peers, order);
    if p in peers {
      var i :| 0 <= i < |order| && order[i] == p;
      assert vs[i].peerId == p;
    }
  }

  /** `connection.close()` on the connection of each key of `ks`, in order;
      closing a closed connection changes nothing. */
  function CloseKeys(conns: seq<Conn>, peers: map<PeerId, PeerData>, ks: seq<PeerId>): (r: seq<Conn>)
    requires forall p | p in ks :: p in peers && peers[p].connection < |conns|
    ensures |r| == |conns|
    decreases |ks|
  {
    if ks == [] then conns
    else
      var prev := CloseKeys(conns, peers, ks[..|ks| - 1]);
      var c := peers[ks[|ks| - 1]].connection;
      prev[c := prev[c].(closed := true)]
  }

  /** The loop closes exactly the connections of the keys, and changes
      nothing else about any connection. */
  lemma {:induction false} CloseKeysAt(conns: seq<Conn>, peers: map<PeerId, PeerData>, ks: seq<PeerId>, c: ConnId)
    requires forall p | p in ks :: p in peers && peers[p].connection < |conns|
    requires c < |conns|
    ensures CloseKeys(conns, peers, ks)[c]
         == conns[c].(closed := conns[c].closed || exists p | p in ks :: peers[p].connection == c)
    decreases |ks|
  {
    if ks != [] {
      var init, last := ks[..|ks| - 1], ks[|ks| - 1];
      assert ks == init + [last];
      CloseKeysAt(conns, peers, init, c);
      if peers[last].connection != c {
        assert (exists p | p in ks :: peers[p].connection == c) == (exists p | p in init :: peers[p].connection == c);
      }
    }
  }

  /** The connections after `createPeerConnection(p)`: unchanged when `p`
      has an entry, and otherwise one more, open, carrying the local
      stream's tracks and nothing applied yet. */
  function Ensured(conns: seq<Conn>, peers: map<PeerId, PeerData>, p: PeerId, local: Option<Stream>): seq<Conn> {
    if p in peers then conns else conns + [Conn(p, false, local, None, None, [])]
  }

  /** Whether `p` has an entry whose connection has not been closed. */
  predicate Live(peers: map<PeerId, PeerData>, conns: seq<Conn>, p: PeerId) {
    p in peers && peers[p].connection < |conns| && !conns[peers[p].connection].closed
  }

  /** Whether the connection `createPeerConnection(p)` leaves for `p` is
      open: `p` has no entry yet, or its entry's connection is not closed. */
  predicate Usable(peers: map<PeerId, PeerData>, conns: seq<Conn>, p: PeerId) {
    p !in peers || Live(peers, conns, p)
  }

  /** Registering an entry for the peer a connection was made for keeps the
      registry invariant. */
  lemma TrackKeepsTable(peers: map<PeerId, PeerData>, order: seq<PeerId>, conns: seq<Conn>, c: ConnId, entry: PeerData)
    requires Table(peers, order, conns) && c < |conns|
    requires entry.peerId == conns[c].peerId
    requires entry.connection == if entry.peerId in peers then peers[entry.peerId].connection else c
    ensures Table(peers[entry.peerId := entry], Register(order, entry.peerId), conns)
  {
  }

  /** Closing a registered peer's connection and deleting its entry keeps the
      table consistent. */
  lemma RemoveKeepsTable(peers: map<PeerId, PeerData>, order: seq<PeerId>, conns: seq<Conn>, p: PeerId)
    requires Table(peers, order, conns) && p in peers
    ensures var c := peers[p].connection;
      Table(peers - {p}, Unregister(order, p), conns[c := conns[c].(closed := true)])
  {
  }

  class WebRTCManager {
    var peerConnections: map<PeerId, PeerData>
    /** The keys of `peerConnections` in insertion order. */
    var order: seq<PeerId>
    var localStream: Option<Stream>
    /** Every RTCPeerConnection made so far. */
    var connections: seq<Conn>
    /** The local streams whose tracks have been stopped. */
    var stopped: set<Stream>

    ghost predicate Valid()
      reads this
    {
      Table(peerConnections, order, connections)
    }

    constructor ()
      ensures Valid()
      ensures peerConnections == map[] && order == [] && localStream == None
      ensures connections == [] && stopped == {}
    {
      peerConnections, order, localStream, connections, stopped := map[], [], None, [], {};
    }

    /** `getLocalStream()`: the cached stream when there is one; otherwise
        `media` is what `getUserMedia` yields, None when access is refused. */
    method GetLocalStream(media: Option<Stream>) returns (r: Result<Stream>)
      requires Valid()
      modifies this
      ensures Valid()
      ensures old(localStream).Some? ==> r == Success(old(localStream).value) && localStream == old(localStream)
      ensures old(localStream).None? && media.Some? ==> r == Success(media.value) && localStream == media
      ensures old(localStream).None? && media.None? ==> r == Failure(MediaAccessDenied) && localStream == None
      ensures peerConnections == old(peerConnections) && order == old(order)
      ensures connections == old(connections) && stopped == old(stopped)
    {
      if localStream.Some? {
        return Success(localStream.value);
      }
      if media.None? {
        return Failure(MediaAccessDenied);
      }
      localStream := media;
      r := Success(media.value);
    }

    /** `createPeerConnection(peerId, ...)`: the existing connection when the
        peer has one, and otherwise a new connection carrying the local
        stream's tracks, registered last with no remote stream. */
    method CreatePeerConnection(p: PeerId) returns (c: ConnId)
      requires Valid()
      modifies this
      ensures Valid()
      ensures p in peerConnections && c == peerConnections[p].connection
      ensures connections == Ensured(old(connections), old(peerConnections), p, localStream)
      ensures old(p in peerConnections) ==>
        && peerConnections == old(peerConnections) && order == old(order) && connections == old(connections)
      ensures old(p !in peerConnections) ==>
        && c == |old(connections)|
        && connections == old(connections) + [Conn(p, false, localStream, None, None, [])]
        && peerConnections == old(peerConnections)[p := PeerData(c, None, p)]
        && order == old(order) + [p]
      ensures localStream == old(localStream) && stopped == old(stopped)
    {
      if p in peerConnections {
        return peerConnections[p].connection;
      }
      c := |connections|;
      connections := connections + [Conn(p, false, localStream, None, None, [])];
      peerConnections := peerConnections[p := PeerData(c, None, p)];
      order := order + [p];
    }

    /** `createOffer(peerId)` and `createAnswer(peerId)`: `generated` is the
        description the browser produces; it becomes the local description.
        A peer without an entry is an error. The browser refuses a closed
        connection, and `accepted` is false when it refuses for another
        reason (a signaling state the description does not fit). */
    method CreateDescription(p: PeerId, generated: Payload, accepted: bool) returns (r: Result<Payload>)
      requires Valid()
      modifies this
      ensures Valid()
      ensures r.Failure? && r.error == NotInitialized(p) <==> old(p !in peerConnections)
      ensures r.Success? <==> old(Live(peerConnections, connections, p)) && accepted
      ensures r.Success? ==>
        var c := old(peerConnections[p].connection);
        && r.value == generated
        && connections == old(connections)[c := old(connections[c]).(localDescription := Some(generated))]
      ensures r.Failure? ==> connections == old(connections)
      ensures peerConnections == old(peerConnections) && order == old(order)
      ensures localStream == old(localStream) && stopped == old(stopped)
    {
      if p !in peerConnections {
        return Failure(NotInitialized(p));
      }
      var c := peerConnections[p].connection;
      if connections[c].closed || !accepted {
        return Failure(Rejected);
      }
      connections := connections[c := connections[c].(localDescription := Some(generated))];
      r := Success(generated);
    }

    /** `setRemoteDescription(peerId, description)`: `description` is None
        when the message carried no data, which the browser refuses; it also
        refuses a closed connection, and `accepted` is false when it refuses
        for another reason (an answer arriving in the `stable` state). */
    method SetRemoteDescription(p: PeerId, description: Option<Payload>, accepted: bool) returns (r: Result<ConnId>)
      requires Valid()
      modifies this
      ensures Valid()
      ensures r.Failure? && r.error == NotInitialized(p) <==> old(p !in peerConnections)
      ensures r.Success? <==> old(Live(peerConnections, connections, p)) && description.Some? && accepted
      ensures r.Success? ==>
        && r.value == old(peerConnections[p].connection)
        && connections == old(connections)[r.value := old(connections[r.value]).(remoteDescription := description)]
      ensures r.Failure? ==> connections == old(connections)
      ensures peerConnections == old(peerConnections) && order == old(order)
      ensures localStream == old(localStream) && stopped == old(stopped)
    {
      if p !in peerConnections {
        return Failure(NotInitialized(p));
      }
      var c := peerConnections[p].connection;
      if connections[c].closed || description.None? || !accepted {
        return Failure(Rejected);
      }
      connections := connections[c := connections[c].(remoteDescription := description)];
      r := Success(c);
    }

    /** `addIceCandidate(peerId, candidate)`: never throws. An unknown peer
        is only logged; a candidate the browser refuses (`accepted` false, or
        a closed connection) is swallowed. */
    method AddIceCandidate(p: PeerId, candidate: Payload, accepted: bool)
      requires Valid()
      modifies this
      ensures Valid()
      ensures old(p in peerConnections && !connections[peerConnections[p].connection].closed) && accepted ==>
        var c := old(peerConnections[p].connection);
        connections == old(connections)[c := old(connections[c]).(candidates := old(connections[c].candidates) + [candidate])]
      ensures !(old(p in peerConnections && !connections[peerConnections[p].connection].closed) && accepted) ==>
        connections == old(connections)
      ensures peerConnections == old(peerConnections) && order == old(order)
      ensures localStream == old(localStream) && stopped == old(stopped)
    {
      if p !in peerConnections {
        return;
      }
      var c := peerConnections[p].connection;
      if !connections[c].closed && accepted {
        connections := connections[c := connections[c].(candidates := connections[c].candidates + [candidate])];
      }
    }

    /** `removePeer(peerId)`: close the peer's connection and delete its
        entry; an unknown peer changes nothing. */
    method RemovePeer(p: PeerId)
      requires Valid()
      modifies this
      ensures Valid()
      ensures p !in peerConnections
      ensures peerConnections == old(peerConnections) - {p} && order == Unregister(old(order), p)
      ensures old(p in peerConnections) ==>
        var c := old(peerConnections[p].connection);
        connections == old(connections)[c := old(connections[c]).(closed := true)]
      ensures old(p !in peerConnections) ==> connections == old(connections) && order == old(order)
      ensures localStream == old(localStream) && stopped == old(stopped)
    {
      if p in peerConnections {
        var c := peerConnections[p].connection;
        RemoveKeepsTable(peerConnections, order, connections, p);
        peerConnections, order, connections :=
          peerConnections - {p}, Unregister(order, p), connections[c := connections[c].(closed := true)];
      } else {
        assert p !in order;
      }
    }

    /** `ontrack` of connection `c`: the entry of the peer it was made for
        gets the stream; when that entry is gone, a new one is registered. */
    method Track(c: ConnId, stream: Stream)
      requires Valid() && c < |connections|
      modifies this
      ensures connections == old(connections)
      ensures Valid()
      ensures var p := connections[c].peerId;
        && peerConnections == old(peerConnections)[p :=
             if p in old(peerConnections) then old(peerConnections[p]).(stream := Some(stream))
             else PeerData(c, Some(stream), p)]
        && order == Register(old(order), p)
      ensures localStream == old(localStream) && stopped == old(stopped)
    {
      var p := connections[c].peerId;
      var entry := if p in peerConnections then peerConnections[p].(stream := Some(stream)) else PeerData(c, Some(stream), p);
      TrackKeepsTable(peerConnections, order, connections, c, entry);
      peerConnections, order := peerConnections[p := entry], Register(order, p);
    }

    /** `onconnectionstatechange` of connection `c`: a failed or closed
        connection's peer is removed. */
    method ConnectionStateChanged(c: ConnId, state: ConnectionState)
      requires Valid() && c < |connections|
      modifies this
      ensures |connections| == |old(connections)|
      ensures Valid()
      ensures state in {Failed, Closed} ==>
        var p := old(connections[c].peerId);
        && peerConnections == old(peerConnections) - {p} && order == Unregister(old(order), p)
        && (old(p in peerConnections) ==>
              var k := old(peerConnections[p].connection);
              connections == old(connections)[k := old(connections[k]).(closed := true)])
        && (old(p !in peerConnections) ==> connections == old(connections))
      ensures state !in {Failed, Closed} ==>
        peerConnections == old(peerConnections) && order == old(order) && connections == old(connections)
      ensures localStream == old(localStream) && stopped == old(stopped)
    {
      if state == Failed || state == Closed {
        RemovePeer(connections[c].peerId);
      }
    }

    /** `getPeerStream(peerId)` */
    function GetPeerStream(p: PeerId): (s: Option<Stream>)
      reads this
      ensures s.Some? ==> p in peerConnections && peerConnections[p].stream == s
      ensures p in peerConnections ==> s == peerConnections[p].stream
    {
      if p in peerConnections then peerConnections[p].stream else None
    }

    /** `getAllPeers()`: every entry once, in key order, each listed under its
        own peer id. */
    function GetAllPeers(): (vs: seq<PeerData>)
      reads this
      requires Valid()
      ensures |vs| == |order| && forall i | 0 <= i < |order| :: vs[i] == peerConnections[order[i]]
      ensures forall p | p in peerConnections :: peerConnections[p] in vs
      ensures forall d | d in vs :: d.peerId in peerConnections && peerConnections[d.peerId] == d
    {
      Values(peerConnections, order)
    }

    /** `cleanup()`: stop the local tracks, close every registered
        connection in key order, and forget them and the local stream. */
    method Cleanup()
      requires Valid()
      modifies this
      ensures Valid()
      ensures peerConnections == map[] && order == [] && localStream == None
      ensures connections == CloseKeys(old(connections), old(peerConnections), old(order))
      ensures stopped == old(stopped) + if old(localStream).Some? then {old(localStream).value} else {}
    {
      if localStream.Some? {
        stopped := stopped + {localStream.value};
      }
      var conns := CloseLoop(connections, peerConnections, order);
      connections, localStream := conns, None;
      peerConnections, order := map[], [];
    }
  }

  /** The `forEach` over the map in `cleanup`, run on a copy of the connections. */
  method CloseLoop(conns: seq<Conn>, peers: map<PeerId, PeerData>, order: seq<PeerId>) returns (out: seq<Conn>)
    requires forall p | p in order :: p in peers && peers[p].connection < |conns|
    ensures out == CloseKeys(conns, peers, order)
  {
    out := conns;
    var i := 0;
    while i < |order|
      invariant 0 <= i <= |order|
      invariant out == CloseKeys(conns, peers, order[..i])
    {
      assert order[..i + 1] == order[..i] + [order[i]];
      var c := peers[order[i]].connection;
      out := out[c := out[c].(closed := true)];
      i := i + 1;
    }
    assert order[..i] == order;
  }
}
