/** The relay's view of its signaling sockets and of one room's keys, and
    the two fan-out loops of server/server.js: the join announcement and the
    peer-left notice. Each socket is an OPEN flag and the list of frames
    sent on it. */
module Fanout {
  import opened Wire
  import opened KeyOrder

  datatype Socket = Socket(open: bool, outbox: seq<Message>)

  type Sockets = map<PeerId, Socket>

  predicate AllIn(ms: seq<PeerId>, s: Sockets) {
    forall m | m in ms :: m in s
  }

  /** `client.send(frame)`: append a frame to one socket's outbox. */
  function Send(s: Sockets, to: PeerId, frame: Message): (r: Sockets)
    requires to in s
    ensures r.Keys == s.Keys && r[to].open == s[to].open && r[to].outbox == s[to].outbox + [frame]
    ensures forall q | q in s && q != to :: r[q] == s[q]
  {
    s[to := Socket(s[to].open, s[to].outbox + [frame])]
  }

  // ---------------------------------------------------------------------
  // The join announcement (server/server.js:59-75).

  /** One iteration of the loop over the room: an open member `m` is told about
      the joiner, and the joiner is told about `m`; a member whose socket is not
      open is skipped in both directions. */
  function AnnounceOne(s: Sockets, m: PeerId, joiner: PeerId, roomId: RoomId): (r: Sockets)
    requires m in s && joiner in s
    ensures r.Keys == s.Keys && forall q | q in s :: r[q].open == s[q].open
    ensures !s[m].open ==> r == s
  {
    if s[m].open then
      Send(Send(s, m, PeerJoinedMsg(roomId, joiner)), joiner, PeerJoinedMsg(roomId, m))
    else s
  }

  /** The whole loop over the members `ms`, in order. */
  function Announce(s: Sockets, ms: seq<PeerId>, joiner: PeerId, roomId: RoomId): (r: Sockets)
    requires joiner in s && AllIn(ms, s)
    ensures r.Keys == s.Keys
    ensures forall q | q in s :: r[q].open == s[q].open
    decreases |ms|
  {
    if ms == [] then s
    else
      var prev := Announce(s, ms[..|ms| - 1], joiner, roomId);
      AnnounceOne(prev, ms[|ms| - 1], joiner, roomId)
  }

  /** What the announcement loop over `ms` appends to the outbox of `q`. */
  function Notices(s: Sockets, ms: seq<PeerId>, joiner: PeerId, roomId: RoomId, q: PeerId): seq<Message>
    requires AllIn(ms, s)
    decreases |ms|
  {
    if ms == [] then []
    else
      var m := ms[|ms| - 1];
      Notices(s, ms[..|ms| - 1], joiner, roomId, q)
        + (if s[m].open && q == m then [PeerJoinedMsg(roomId, joiner)] else [])
        + (if s[m].open && q == joiner then [PeerJoinedMsg(roomId, m)] else [])
  }

  /** The members of `ms` whose socket is open, in order. */
  function OpenMembers(s: Sockets, ms: seq<PeerId>): seq<PeerId>
    requires AllIn(ms, s)
    decreases |ms|
  {
    if ms == [] then []
    else
      var m := ms[|ms| - 1];
      OpenMembers(s, ms[..|ms| - 1]) + (if s[m].open then [m] else [])
  }

  /** One peer-joined notice per peer of `ps`, in order. */
  function PeerJoinedEach(roomId: RoomId, ps: seq<PeerId>): (r: seq<Message>)
    ensures |r| == |ps|
    ensures forall i | 0 <= i < |ps| :: r[i] == PeerJoinedMsg(roomId, ps[i])
  {
    seq(|ps|, i requires 0 <= i < |ps| => PeerJoinedMsg(roomId, ps[i]))
  }

  /** One iteration appends to the outbox of `q` its part of the exchange with `m`. */
  lemma AnnounceOneAt(s: Sockets, m: PeerId, joiner: PeerId, roomId: RoomId, q: PeerId)
    requires m in s && joiner in s && q in s
    ensures AnnounceOne(s, m, joiner, roomId)[q] == Socket(s[q].open, s[q].outbox
      + (if s[m].open && q == m then [PeerJoinedMsg(roomId, joiner)] else [])
      + (if s[m].open && q == joiner then [PeerJoinedMsg(roomId, m)] else []))
  {
  }

  /** The loop appends to each socket's outbox exactly its notices, and nothing else. */
  lemma {:induction false} AnnounceOutbox(s: Sockets, ms: seq<PeerId>, joiner: PeerId, roomId: RoomId, q: PeerId)
    requires joiner in s && AllIn(ms, s) && q in s
    ensures Announce(s, ms, joiner, roomId)[q]
         == Socket(s[q].open, s[q].outbox + Notices(s, ms, joiner, roomId, q))
  {
    if ms != [] {
      var init, m := ms[..|ms| - 1], ms[|ms| - 1];
      var prev := Announce(s, init, joiner, roomId);
      AnnounceOutbox(s, init, joiner, roomId, q);
      AnnounceOneAt(prev, m, joiner, roomId, q);
      assert prev[m].open == s[m].open;
    }
  }

  /** A socket that is neither the joiner nor a member receives nothing. */
  lemma {:induction false} NoticesToBystander(s: Sockets, ms: seq<PeerId>, joiner: PeerId, roomId: RoomId, q: PeerId)
    requires AllIn(ms, s) && q != joiner && q !in ms
    ensures Notices(s, ms, joiner, roomId, q) == []
  {
    if ms != [] {
      assert ms == ms[..|ms| - 1] + [ms[|ms| - 1]];
      NoticesToBystander(s, ms[..|ms| - 1], joiner, roomId, q);
    }
  }

  /** A member other than the joiner receives exactly one peer-joined naming the
      joiner when its socket is open, and nothing when it is not. */
  lemma {:induction false} NoticesToMember(s: Sockets, ms: seq<PeerId>, joiner: PeerId, roomId: RoomId, q: PeerId)
    requires AllIn(ms, s) && Distinct(ms) && q != joiner && q in ms
    ensures Notices(s, ms, joiner, roomId, q) == if s[q].open then [PeerJoinedMsg(roomId, joiner)] else []
  {
    var init := ms[..|ms| - 1];
    assert ms == init + [ms[|ms| - 1]];
    if ms[|ms| - 1] == q {
      assert q !in init by {
        forall i | 0 <= i < |init| ensures init[i] != q {
          assert ms[i] != ms[|ms| - 1];
        }
      }
      NoticesToBystander(s, init, joiner, roomId, q);
    } else {
      NoticesToMember(s, init, joiner, roomId, q);
    }
  }

  /** A joiner that was not yet a member learns exactly the open members, one
      peer-joined each, in the room's order. */
  lemma {:induction false} NoticesToJoiner(s: Sockets, ms: seq<PeerId>, joiner: PeerId, roomId: RoomId)
    requires AllIn(ms, s) && joiner !in ms
    ensures Notices(s, ms, joiner, roomId, joiner) == PeerJoinedEach(roomId, OpenMembers(s, ms))
  {
    if ms != [] {
      var init, m := ms[..|ms| - 1], ms[|ms| - 1];
      assert ms == init + [m];
      NoticesToJoiner(s, init, joiner, roomId);
      var before := OpenMembers(s, init);
      var extra := if s[m].open then [m] else [];
      assert PeerJoinedEach(roomId, before + extra)
          == PeerJoinedEach(roomId, before) + PeerJoinedEach(roomId, extra);
    }
  }

  /** The socket table after a join: the announcement loop, then the
      room-peers reply listing the room's keys after registration. */
  function Join(s: Sockets, ms: seq<PeerId>, joiner: PeerId, roomId: RoomId): (r: Sockets)
    requires joiner in s && AllIn(ms, s)
    ensures r.Keys == s.Keys && forall q | q in s :: r[q].open == s[q].open
    ensures |r[joiner].outbox| > 0 && r[joiner].outbox[|r[joiner].outbox| - 1] == RoomPeersMsg(roomId, Register(ms, joiner))
  {
    Send(Announce(s, ms, joiner, roomId), joiner, RoomPeersMsg(roomId, Register(ms, joiner)))
  }

  /** What a join by a peer that is not yet in the room delivers: the joiner
      gets one peer-joined per open member, in order, then a room-peers list
      that ends with itself; each open member gets one peer-joined naming the
      joiner; every other socket, and every OPEN flag, is untouched. */
  lemma JoinDeliveries(s: Sockets, ms: seq<PeerId>, joiner: PeerId, roomId: RoomId)
    requires joiner in s && AllIn(ms, s) && Distinct(ms) && joiner !in ms
    ensures var r := Join(s, ms, joiner, roomId);
      && r.Keys == s.Keys
      && (forall q | q in s :: r[q].open == s[q].open)
      && r[joiner].outbox == s[joiner].outbox
           + PeerJoinedEach(roomId, OpenMembers(s, ms))
           + [RoomPeersMsg(roomId, ms + [joiner])]
      && (forall q | q in ms && s[q].open :: r[q].outbox == s[q].outbox + [PeerJoinedMsg(roomId, joiner)])
      && (forall q | q in s && q != joiner && (q !in ms || !s[q].open) :: r[q] == s[q])
  {
    var a := Announce(s, ms, joiner, roomId);
    AnnounceOutbox(s, ms, joiner, roomId, joiner);
    NoticesToJoiner(s, ms, joiner, roomId);
    forall q | q in s && q != joiner
      ensures a[q].outbox == s[q].outbox + (if q in ms && s[q].open then [PeerJoinedMsg(roomId, joiner)] else [])
      ensures a[q].open == s[q].open
    {
      AnnounceOutbox(s, ms, joiner, roomId, q);
      if q in ms {
        NoticesToMember(s, ms, joiner, roomId, q);
      } else {
        NoticesToBystander(s, ms, joiner, roomId, q);
      }
    }
  }

  // ---------------------------------------------------------------------
  // The peer-left notice (server/server.js:122-130).

  /** Send `frame` to every member of `ms` whose socket is open, in order. */
  function Broadcast(s: Sockets, ms: seq<PeerId>, frame: Message): (r: Sockets)
    requires AllIn(ms, s)
    ensures r.Keys == s.Keys
    ensures forall q | q in s :: r[q].open == s[q].open
    decreases |ms|
  {
    if ms == [] then s
    else
      var prev := Broadcast(s, ms[..|ms| - 1], frame);
      var m := ms[|ms| - 1];
      if prev[m].open then Send(prev, m, frame) else prev
  }

  /** Every open member receives the frame exactly once; every other socket is untouched. */
  lemma {:induction false} BroadcastOutbox(s: Sockets, ms: seq<PeerId>, frame: Message, q: PeerId)
    requires AllIn(ms, s) && Distinct(ms) && q in s
    ensures Broadcast(s, ms, frame)[q]
         == if q in ms && s[q].open then Socket(true, s[q].outbox + [frame]) else s[q]
  {
    if ms != [] {
      var init, m := ms[..|ms| - 1], ms[|ms| - 1];
      assert ms == init + [m];
      assert Distinct(init);
      assert m !in init by {
        forall i | 0 <= i < |init| ensures init[i] != m {
          assert ms[i] != ms[|ms| - 1];
        }
      }
      BroadcastOutbox(s, init, frame, q);
    }
  }
}
