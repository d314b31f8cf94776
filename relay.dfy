/** The signaling relay of server/server.js: the global room registry and
    the per-connection `message` and `close` handlers, each run as one atomic
    step of the event loop. A connection is known by the peer id generated for
    it when it was accepted. */
module Relay {
  import opened Wire
  import opened KeyOrder
  import opened Fanout

  /** `{...message, peerId}`: the forwarded copy names the sender instead of the target. */
  function Rewritten(msg: Message, sender: PeerId): (r: Message)
    ensures r.peerId == Some(sender)
    ensures r.kind == msg.kind && r.roomId == msg.roomId && r.data == msg.data && r.peers == msg.peers
  {
    msg.(peerId := Some(sender))
  }

  /** The rooms after `p` leaves room `r`: `p` is deleted from the room's keys
      and the room itself is deleted when no key remains. */
  function Depart(rooms: map<RoomId, seq<PeerId>>, r: RoomId, p: PeerId): (result: map<RoomId, seq<PeerId>>)
    requires r in rooms
    ensures forall r' | r' != r :: (r' in result <==> r' in rooms) && (r' in rooms ==> result[r'] == rooms[r'])
    ensures r in result <==> exists q :: q in rooms[r] && q != p
    ensures r in result ==> result[r] == Unregister(rooms[r], p) && p !in result[r]
  {
    var rest := Unregister(rooms[r], p);
    assert |rest| > 0 ==> rest[0] in rest;
    if |rest| == 0 then rooms - {r} else rooms[r := rest]
  }

  /** The keys of room `r`, or none when the room does not exist. */
  function MembersOf(rooms: map<RoomId, seq<PeerId>>, r: RoomId): seq<PeerId> {
    if r in rooms then rooms[r] else []
  }

  /** The registry invariant: a room exists only while it holds a peer; its
      keys are unique and name known connections; a connection whose close
      handler has not run is a member of its current room. That connection
      may already be closing: `ws` marks a socket CLOSING when the close
      frame arrives and runs the handler later, which is why every send
      checks `readyState` first. */
  ghost predicate Registry(rooms: map<RoomId, seq<PeerId>>, sockets: Sockets, currentRoom: map<PeerId, RoomId>) {
    && (forall r | r in rooms :: rooms[r] != [] && Distinct(rooms[r]) && AllIn(rooms[r], sockets))
    && (forall p | p in currentRoom ::
          p in sockets && currentRoom[p] in rooms && p in rooms[currentRoom[p]])
  }

  /** A join keeps the registry invariant: the joined room exists and holds the joiner. */
  lemma JoinKeepsRegistry(rooms: map<RoomId, seq<PeerId>>, sockets: Sockets, currentRoom: map<PeerId, RoomId>,
                          p: PeerId, roomId: RoomId)
    requires Registry(rooms, sockets, currentRoom) && p in sockets
    ensures var ms := MembersOf(rooms, roomId);
      && Registry(rooms[roomId := Register(ms, p)], Join(sockets, ms, p, roomId), currentRoom[p := roomId])
      && roomId in rooms[roomId := Register(ms, p)] && p in Register(ms, p)
  {
    var ms := MembersOf(rooms, roomId);
    var rooms', sockets' := rooms[roomId := Register(ms, p)], Join(sockets, ms, p, roomId);
    assert sockets'.Keys == sockets.Keys;
    forall r | r in rooms' ensures rooms'[r] != [] && Distinct(rooms'[r]) && AllIn(rooms'[r], sockets') {
    }
  }

  /** The rooms and sockets after `p`'s close handler has run. */
  function AfterClose(rooms: map<RoomId, seq<PeerId>>, sockets: Sockets, currentRoom: map<PeerId, RoomId>,
                      p: PeerId): (map<RoomId, seq<PeerId>>, Sockets)
    requires Registry(rooms, sockets, currentRoom) && p in sockets
  {
    var closed := sockets[p := Socket(false, sockets[p].outbox)];
    if p in currentRoom && currentRoom[p] != "" then
      var r := currentRoom[p];
      (Depart(rooms, r, p), Broadcast(closed, Unregister(rooms[r], p), PeerLeftMsg(r, p)))
    else (rooms, closed)
  }

  /** A close keeps the registry invariant: the room is deleted exactly when
      its last key goes, so no empty room is left behind. */
  lemma CloseKeepsRegistry(rooms: map<RoomId, seq<PeerId>>, sockets: Sockets, currentRoom: map<PeerId, RoomId>,
                           p: PeerId)
    requires Registry(rooms, sockets, currentRoom) && p in sockets
    ensures var (rooms', sockets') := AfterClose(rooms, sockets, currentRoom, p);
      Registry(rooms', sockets', currentRoom - {p})
  {
    var (rooms', sockets') := AfterClose(rooms, sockets, currentRoom, p);
    assert sockets'.Keys == sockets.Keys;
    assert forall q | q in sockets && q != p :: sockets'[q].open == sockets[q].open;
    forall q | q in currentRoom - {p}
      ensures currentRoom[q] in rooms' && q in rooms'[currentRoom[q]]
    {
      if p in currentRoom && currentRoom[p] != "" && currentRoom[q] == currentRoom[p] {
        assert q in Unregister(rooms[currentRoom[p]], p);
      }
    }
  }

  /** The loop of the `join-room` handler over the room's keys
      (server/server.js:59-75), run on a copy of the socket table. */
  method AnnounceLoop(s: Sockets, room: seq<PeerId>, p: PeerId, roomId: RoomId) returns (out: Sockets)
    requires p in s && AllIn(room, s)
    ensures out == Announce(s, room, p, roomId)
  {
    out := s;
    var i := 0;
    while i < |room|
      invariant 0 <= i <= |room|
      invariant out == Announce(s, room[..i], p, roomId)
    {
      var m := room[i];
      assert room[..i + 1] == room[..i] + [m];
      if out[m].open {
        out := Send(out, m, PeerJoinedMsg(roomId, p));
        out := Send(out, p, PeerJoinedMsg(roomId, m));
      }
      i := i + 1;
    }
    assert room[..i] == room;
  }

  /** The loop of the `close` handler over the remaining keys
      (server/server.js:122-130), run on a copy of the socket table. */
  method BroadcastLoop(s: Sockets, room: seq<PeerId>, frame: Message) returns (out: Sockets)
    requires AllIn(room, s)
    ensures out == Broadcast(s, room, frame)
  {
    out := s;
    var i := 0;
    while i < |room|
      invariant 0 <= i <= |room|
      invariant out == Broadcast(s, room[..i], frame)
    {
      assert room[..i + 1] == room[..i] + [room[i]];
      if out[room[i]].open {
        out := Send(out, room[i], frame);
      }
      i := i + 1;
    }
    assert room[..i] == room;
  }

  class SignalingRelay {
    /** `rooms`: each room's peer ids in insertion order. */
    var rooms: map<RoomId, seq<PeerId>>
    /** Every signaling connection accepted so far, by its peer id. */
    var sockets: Sockets
    /** `currentRoomId` of each connection whose close handler has not run and
        that has joined a room; a connection missing here has `null`. */
    var currentRoom: map<PeerId, RoomId>

    ghost predicate Valid()
      reads this
    {
      Registry(rooms, sockets, currentRoom)
    }

    constructor ()
      ensures Valid()
      ensures rooms == map[] && sockets == map[] && currentRoom == map[]
    {
      rooms, sockets, currentRoom := map[], map[], map[];
    }

    /** The keys of room `r`, or none when it does not exist. */
    function Members(r: RoomId): seq<PeerId>
      reads this
    {
      MembersOf(rooms, r)
    }

    /** The four conditions under which an offer, answer or ice-candidate from `p` is delivered. */
    predicate Deliverable(p: PeerId, msg: Message)
      reads this
      ensures Deliverable(p, msg) ==> Truthy(msg.peerId) && msg.peerId.value in sockets && sockets[msg.peerId.value].open
      ensures Deliverable(p, msg) ==> p in currentRoom && currentRoom[p] in rooms && msg.peerId.value in rooms[currentRoom[p]]
    {
      && p in currentRoom && currentRoom[p] != ""
      && Truthy(msg.peerId)
      && currentRoom[p] in rooms
      && msg.peerId.value in rooms[currentRoom[p]]
      && msg.peerId.value in sockets && sockets[msg.peerId.value].open
    }

    /** A new signaling connection, with the fresh peer id generated for it. */
    method Accept(p: PeerId)
      requires Valid() && p !in sockets
      modifies this
      ensures Valid()
      ensures sockets == old(sockets)[p := Socket(true, [])]
      ensures rooms == old(rooms) && currentRoom == old(currentRoom)
    {
      sockets := sockets[p := Socket(true, [])];
    }

    /** `join-room`: record the room, create it when absent, announce the
        joiner to the open members and them to it, register it, and reply
        with the room's keys, the joiner's own id included. */
    method HandleJoin(p: PeerId, roomId: RoomId)
      requires Valid() && p in sockets && sockets[p].open
      modifies this
      ensures Valid()
      ensures rooms == old(rooms)[roomId := Register(old(Members(roomId)), p)]
      ensures currentRoom == old(currentRoom)[p := roomId]
      ensures sockets == Join(old(sockets), old(Members(roomId)), p, roomId)
    {
      JoinKeepsRegistry(rooms, sockets, currentRoom, p, roomId);
      // A room that does not exist yet is created empty.
      var room := if roomId in rooms then rooms[roomId] else [];
      var out := AnnounceLoop(sockets, room, p, roomId);
      room := Register(room, p);
      rooms, currentRoom := rooms[roomId := room], currentRoom[p := roomId];
      sockets := Send(out, p, RoomPeersMsg(roomId, room));
    }

    /** `offer`, `answer`, `ice-candidate`: deliver a copy naming the sender
        to the target when all four conditions hold, and otherwise drop it. */
    method HandleForward(p: PeerId, msg: Message)
      requires Valid() && p in sockets && sockets[p].open
      modifies this
      ensures Valid()
      ensures rooms == old(rooms) && currentRoom == old(currentRoom)
      ensures old(Deliverable(p, msg)) ==> sockets == Send(old(sockets), msg.peerId.value, Rewritten(msg, p))
      ensures !old(Deliverable(p, msg)) ==> sockets == old(sockets)
    {
      if p in currentRoom && currentRoom[p] != "" && Truthy(msg.peerId) {
        var r := currentRoom[p];
        if r in rooms {
          var target := msg.peerId.value;
          if target in rooms[r] && sockets[target].open {
            sockets := Send(sockets, target, Rewritten(msg, p));
          }
        }
      }
    }

    /** The `message` handler: `parsed` is None when the frame is not valid
        JSON; a failure or an unhandled type changes nothing. */
    method HandleMessage(p: PeerId, parsed: Option<Message>)
      requires Valid() && p in sockets && sockets[p].open
      modifies this
      ensures Valid()
      ensures parsed.None? || parsed.value.kind !in {JoinRoom, Offer, Answer, IceCandidate} ==>
        rooms == old(rooms) && sockets == old(sockets) && currentRoom == old(currentRoom)
      ensures parsed.Some? && parsed.value.kind == JoinRoom ==>
        && rooms == old(rooms)[parsed.value.roomId := Register(old(Members(parsed.value.roomId)), p)]
        && currentRoom == old(currentRoom)[p := parsed.value.roomId]
        && sockets == Join(old(sockets), old(Members(parsed.value.roomId)), p, parsed.value.roomId)
      ensures parsed.Some? && parsed.value.kind in {Offer, Answer, IceCandidate} ==>
        && rooms == old(rooms) && currentRoom == old(currentRoom)
        && sockets == if old(Deliverable(p, parsed.value))
                      then Send(old(sockets), parsed.value.peerId.value, Rewritten(parsed.value, p))
                      else old(sockets)
    {
      match parsed
      case None =>
      case Some(msg) =>
        match msg.kind
        case JoinRoom => HandleJoin(p, msg.roomId);
        case Offer => HandleForward(p, msg);
        case Answer => HandleForward(p, msg);
        case IceCandidate => HandleForward(p, msg);
        case _ =>
    }

    /** The close frame of connection `p` arrives: its socket is CLOSING, so
        no send reaches it any more, but its close handler has not run and
        it is still a key of its rooms. */
    method BeginClose(p: PeerId)
      requires Valid() && p in sockets
      modifies this
      ensures Valid()
      ensures sockets == old(sockets)[p := Socket(false, old(sockets)[p].outbox)]
      ensures rooms == old(rooms) && currentRoom == old(currentRoom)
    {
      sockets := sockets[p := Socket(false, sockets[p].outbox)];
    }

    /** The `close` handler: delete the peer from its current room, send
        peer-left to each remaining open member, delete the room when it is
        empty. An empty current room id is falsy and skips all of it. */
    method Close(p: PeerId)
      requires Valid() && p in sockets
      modifies this
      ensures Valid()
      ensures currentRoom == old(currentRoom) - {p}
      ensures p in old(currentRoom) && old(currentRoom)[p] != "" ==>
        var r := old(currentRoom)[p];
        && rooms == Depart(old(rooms), r, p)
        && sockets == Broadcast(old(sockets)[p := Socket(false, old(sockets)[p].outbox)],
                                Unregister(old(rooms)[r], p), PeerLeftMsg(r, p))
      ensures !(p in old(currentRoom) && old(currentRoom)[p] != "") ==>
        && rooms == old(rooms)
        && sockets == old(sockets)[p := Socket(false, old(sockets)[p].outbox)]
    {
      CloseKeepsRegistry(rooms, sockets, currentRoom, p);
      var out := sockets[p := Socket(false, sockets[p].outbox)];
      if p in currentRoom && currentRoom[p] != "" {
        var r := currentRoom[p];
        var room := Unregister(rooms[r], p);
        out := BroadcastLoop(out, room, PeerLeftMsg(r, p));
        rooms := if |room| == 0 then rooms - {r} else rooms[r := room];
      }
      sockets, currentRoom := out, currentRoom - {p};
    }
  }

  /** The key lists the scenarios below go through. */
  lemma PairKeys(a: PeerId, b: PeerId)
    requires a != b
    ensures Register([], a) == [a] && Register([a], b) == [a, b]
    ensures Unregister([a, b], b) == [a] && Unregister([a], a) == []
  {
    assert [a, b][1..] == [b] && [b][1..] == [] && [a][1..] == [];
  }

  /** Peer `a` connects and joins room `r`, which does not exist yet. */
  method JoinFirst(relay: SignalingRelay, a: PeerId, r: RoomId)
    requires relay.Valid() && relay.rooms == map[] && relay.sockets == map[] && relay.currentRoom == map[]
    modifies relay
    ensures relay.Valid()
    ensures relay.rooms == map[r := [a]] && relay.currentRoom == map[a := r]
    ensures relay.sockets.Keys == {a} && relay.sockets[a] == Socket(true, [RoomPeersMsg(r, [a])])
  {
    relay.Accept(a);
    assert relay.Members(r) == [] && Register([], a) == [a];
    assert Announce(relay.sockets, [], a, r) == relay.sockets;
    relay.HandleJoin(a, r);
  }

  /** The socket table after `b` joins a room whose only key is `a`. */
  lemma SecondJoin(s: Sockets, a: PeerId, b: PeerId, r: RoomId)
    requires a != b && s.Keys == {a, b}
    requires s[a] == Socket(true, [RoomPeersMsg(r, [a])]) && s[b] == Socket(true, [])
    ensures Join(s, [a], b, r) == map[a := Socket(true, [RoomPeersMsg(r, [a]), PeerJoinedMsg(r, b)]),
                                      b := Socket(true, [PeerJoinedMsg(r, a), RoomPeersMsg(r, [a, b])])]
  {
    PairKeys(a, b);
    assert OpenMembers(s, [a]) == [a] by {
      assert [a][..0] == [];
    }
    JoinDeliveries(s, [a], b, r);
    var j := Join(s, [a], b, r);
    assert PeerJoinedEach(r, [a]) == [PeerJoinedMsg(r, a)];
    assert j[a] == Socket(true, [RoomPeersMsg(r, [a]), PeerJoinedMsg(r, b)]);
    assert j[b] == Socket(true, [PeerJoinedMsg(r, a), RoomPeersMsg(r, [a, b])]);
  }

  /** Peer `b` connects and joins room `r`, where `a` is. */
  method JoinSecond(relay: SignalingRelay, a: PeerId, b: PeerId, r: RoomId)
    requires a != b
    requires relay.Valid() && relay.rooms == map[r := [a]] && relay.currentRoom == map[a := r]
    requires relay.sockets.Keys == {a} && relay.sockets[a] == Socket(true, [RoomPeersMsg(r, [a])])
    modifies relay
    ensures relay.Valid()
    ensures relay.rooms == map[r := [a, b]] && relay.currentRoom == map[a := r, b := r]
    ensures relay.sockets.Keys == {a, b}
    ensures relay.sockets[a] == Socket(true, [RoomPeersMsg(r, [a]), PeerJoinedMsg(r, b)])
    ensures relay.sockets[b] == Socket(true, [PeerJoinedMsg(r, a), RoomPeersMsg(r, [a, b])])
  {
    PairKeys(a, b);
    relay.Accept(b);
    SecondJoin(relay.sockets, a, b, r);
    assert relay.Members(r) == [a];
    relay.HandleJoin(b, r);
  }

  /** `a` offers to `b` and `b` answers `a`: each side receives the other's
      description, naming the sender. */
  method Exchange(relay: SignalingRelay, a: PeerId, b: PeerId, r: RoomId, offer: Payload, answer: Payload)
    requires a != b && a != "" && b != "" && r != ""
    requires relay.Valid() && relay.rooms == map[r := [a, b]] && relay.currentRoom == map[a := r, b := r]
    requires relay.sockets.Keys == {a, b} && relay.sockets[a].open && relay.sockets[b].open
    modifies relay
    ensures relay.Valid()
    ensures relay.rooms == old(relay.rooms) && relay.currentRoom == old(relay.currentRoom)
    ensures relay.sockets.Keys == {a, b}
    ensures relay.sockets[a] == Socket(true, old(relay.sockets[a].outbox) + [DirectedMsg(Answer, r, b, answer)])
    ensures relay.sockets[b] == Socket(true, old(relay.sockets[b].outbox) + [DirectedMsg(Offer, r, a, offer)])
  {
    relay.HandleForward(a, DirectedMsg(Offer, r, b, offer));
    relay.HandleForward(b, DirectedMsg(Answer, r, a, answer));
  }

  /** `b` leaves room `r`; `a` stays and is told. */
  method LeaveSecond(relay: SignalingRelay, a: PeerId, b: PeerId, r: RoomId)
    requires a != b && r != ""
    requires relay.Valid() && relay.rooms == map[r := [a, b]] && relay.currentRoom == map[a := r, b := r]
    requires relay.sockets.Keys == {a, b} && relay.sockets[a].open && relay.sockets[b].open
    modifies relay
    ensures relay.Valid()
    ensures relay.rooms == map[r := [a]] && relay.currentRoom == map[a := r]
    ensures relay.sockets.Keys == {a, b}
    ensures relay.sockets[a] == Socket(true, old(relay.sockets[a].outbox) + [PeerLeftMsg(r, b)])
    ensures relay.sockets[b] == Socket(false, old(relay.sockets[b].outbox))
  {
    PairKeys(a, b);
    ghost var c := relay.sockets[b := Socket(false, relay.sockets[b].outbox)];
    BroadcastOutbox(c, [a], PeerLeftMsg(r, b), a);
    BroadcastOutbox(c, [a], PeerLeftMsg(r, b), b);
    relay.Close(b);
  }

  /** `b`'s connection starts closing while `a` and `b` share room `r`:
      `a`'s offer to `b` is dropped by the `readyState` check, and when `b`'s
      close handler runs, `a` is told `b` left. */
  method ClosingTarget(relay: SignalingRelay, a: PeerId, b: PeerId, r: RoomId, offer: Payload)
    requires a != b && a != "" && b != "" && r != ""
    requires relay.Valid() && relay.rooms == map[r := [a, b]] && relay.currentRoom == map[a := r, b := r]
    requires relay.sockets.Keys == {a, b} && relay.sockets[a].open && relay.sockets[b].open
    modifies relay
    ensures relay.Valid()
    ensures relay.rooms == map[r := [a]] && relay.currentRoom == map[a := r]
    ensures relay.sockets.Keys == {a, b}
    ensures relay.sockets[a] == Socket(true, old(relay.sockets[a].outbox) + [PeerLeftMsg(r, b)])
    ensures relay.sockets[b] == Socket(false, old(relay.sockets[b].outbox))
  {
    PairKeys(a, b);
    relay.BeginClose(b);
    ghost var c := relay.sockets;
    assert !relay.Deliverable(a, DirectedMsg(Offer, r, b, offer));
    relay.HandleForward(a, DirectedMsg(Offer, r, b, offer));
    assert c[b := Socket(false, c[b].outbox)] == c;
    BroadcastOutbox(c, [a], PeerLeftMsg(r, b), a);
    BroadcastOutbox(c, [a], PeerLeftMsg(r, b), b);
    relay.Close(b);
  }

  /** The last peer `a` leaves room `r`, which is deleted. */
  method LeaveLast(relay: SignalingRelay, a: PeerId, r: RoomId)
    requires r != ""
    requires relay.Valid() && relay.rooms == map[r := [a]] && relay.currentRoom == map[a := r]
    requires a in relay.sockets && relay.sockets[a].open
    modifies relay
    ensures relay.rooms == map[] && relay.currentRoom == map[]
    ensures relay.sockets == old(relay.sockets)[a := Socket(false, old(relay.sockets[a].outbox))]
  {
    assert [a][1..] == [];
    relay.Close(a);
  }

  /** `a` and `b` join room `r`, in that order, and exchange an offer and an answer. */
  method Meet(relay: SignalingRelay, a: PeerId, b: PeerId, r: RoomId, offer: Payload, answer: Payload)
    requires a != b && a != "" && b != "" && r != ""
    requires relay.Valid() && relay.rooms == map[] && relay.sockets == map[] && relay.currentRoom == map[]
    modifies relay
    ensures relay.Valid() && relay.rooms == map[r := [a, b]] && relay.currentRoom == map[a := r, b := r]
    ensures relay.sockets.Keys == {a, b}
    ensures relay.sockets[a]
         == Socket(true, [RoomPeersMsg(r, [a]), PeerJoinedMsg(r, b), DirectedMsg(Answer, r, b, answer)])
    ensures relay.sockets[b]
         == Socket(true, [PeerJoinedMsg(r, a), RoomPeersMsg(r, [a, b]), DirectedMsg(Offer, r, a, offer)])
  {
    JoinFirst(relay, a, r);
    JoinSecond(relay, a, b, r);
    Exchange(relay, a, b, r, offer, answer);
  }

  /** Two distinct peers meet in room `r`: `a` joins, `b` joins, `a` offers
      to `b`, `b` answers `a`, `b` leaves, `a` leaves. Each peer sees the
      frames listed, in this order, and the room is gone at the end. The
      room-peers list includes the joiner itself. */
  method RendezvousScenario(a: PeerId, b: PeerId, r: RoomId, offer: Payload, answer: Payload)
    returns (toA: seq<Message>, toB: seq<Message>, roomsAtEnd: map<RoomId, seq<PeerId>>)
    requires a != b && a != "" && b != "" && r != ""
    ensures toA == [ RoomPeersMsg(r, [a]),
                     PeerJoinedMsg(r, b),
                     DirectedMsg(Answer, r, b, answer),
                     PeerLeftMsg(r, b) ]
    ensures toB == [ PeerJoinedMsg(r, a),
                     RoomPeersMsg(r, [a, b]),
                     DirectedMsg(Offer, r, a, offer) ]
    ensures roomsAtEnd == map[]
  {
    var relay := new SignalingRelay();
    Meet(relay, a, b, r, offer, answer);
    LeaveSecond(relay, a, b, r);
    LeaveLast(relay, a, r);
    toA, toB, roomsAtEnd := relay.sockets[a].outbox, relay.sockets[b].outbox, relay.rooms;
  }

  /** Peer `p` joins room `x`, then joins room `y` on the same connection. */
  method JoinTwice(relay: SignalingRelay, p: PeerId, x: RoomId, y: RoomId)
    requires x != y
    requires relay.Valid() && relay.rooms == map[] && relay.sockets == map[] && relay.currentRoom == map[]
    modifies relay
    ensures relay.Valid()
    ensures relay.rooms == map[x := [p], y := [p]] && relay.currentRoom == map[p := y]
    ensures relay.sockets.Keys == {p} && relay.sockets[p].open
  {
    JoinFirst(relay, p, x);
    assert relay.Members(y) == [] && Register([], p) == [p];
    assert Announce(relay.sockets, [], p, y) == relay.sockets;
    relay.HandleJoin(p, y);
  }

  /** Peer `p` joins room `x`, then joins room `y` on the same connection,
      then disconnects: it is deleted from `y` only. */
  method JoinTwiceThenLeave(relay: SignalingRelay, p: PeerId, x: RoomId, y: RoomId)
    requires x != y && y != ""
    requires relay.Valid() && relay.rooms == map[] && relay.sockets == map[] && relay.currentRoom == map[]
    modifies relay
    ensures relay.Valid()
    ensures relay.rooms == map[x := [p]] && relay.currentRoom == map[]
    ensures relay.sockets.Keys == {p} && !relay.sockets[p].open
  {
    JoinTwice(relay, p, x, y);
    assert [p][1..] == [];
    relay.Close(p);
  }

  /** A connection `p` that joins a second room `y` is deleted, on close,
      from `y` only: it stays a key of the first room `x`, and a later joiner
      `q` of `x` is told it is there although its socket is closed. */
  method StaleMemberScenario(p: PeerId, q: PeerId, x: RoomId, y: RoomId)
    returns (toQ: seq<Message>, roomsAtEnd: map<RoomId, seq<PeerId>>)
    requires p != q && x != y && y != ""
    ensures toQ == [RoomPeersMsg(x, [p, q])]
    ensures roomsAtEnd == map[x := [p, q]]
  {
    var relay := new SignalingRelay();
    JoinTwiceThenLeave(relay, p, x, y);
    PairKeys(p, q);
    relay.Accept(q);
    ghost var s := relay.sockets;
    assert OpenMembers(s, [p]) == [] by {
      assert [p][..0] == [];
    }
    JoinDeliveries(s, [p], q, x);
    relay.HandleJoin(q, x);
    toQ, roomsAtEnd := relay.sockets[q].outbox, relay.rooms;
  }
}
