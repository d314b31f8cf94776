/** The HTTP upgrade routing of server/server.js and the room id a captions
    connection is opened under. The URL has already been parsed to its
    pathname. */
module Upgrade {
  import opened Wire

  /** Where an upgrade request goes: one of the two socket servers, or the
      raw socket is destroyed. */
  datatype Endpoint = SignalingEndpoint | CaptionsEndpoint | Destroyed

  /** The exact signaling path wins, then any path under the captions prefix;
      everything else is refused. */
  function Route(pathname: string): (e: Endpoint)
    ensures e == SignalingEndpoint <==> pathname == SignalingPath
    ensures e == CaptionsEndpoint ==> |pathname| >= |CaptionsPrefix| && pathname[..|CaptionsPrefix|] == CaptionsPrefix
    ensures e == Destroyed ==> pathname != SignalingPath && !(CaptionsPrefix <= pathname)
  {
    if pathname == SignalingPath then SignalingEndpoint
    else if CaptionsPrefix <= pathname then CaptionsEndpoint
    else Destroyed
  }

  /** `pathname.split('/').pop()`: the text after the last '/', or the whole
      path when it has none. */
  function LastSegment(path: string): (seg: string)
    ensures '/' !in seg
    ensures |seg| <= |path| && seg == path[|path| - |seg|..]
    ensures |seg| == |path| || path[|path| - |seg| - 1] == '/'
    decreases |path|
  {
    if path == [] then []
    else if path[|path| - 1] == '/' then []
    else
      var init := LastSegment(path[..|path| - 1]);
      assert path[..|path| - 1][|path| - 1 - |init|..] + [path[|path| - 1]] == path[|path| - |init| - 1..];
      init + [path[|path| - 1]]
  }

  /** The last segment is determined by the three facts above: a path that is
      some prefix, a '/', then a text without '/' has that text as its last
      segment. */
  lemma {:induction false} LastSegmentAfterSlash(prefix: string, seg: string)
    requires '/' !in seg
    ensures LastSegment(prefix + "/" + seg) == seg
  {
    var path := prefix + "/" + seg;
    var n := |path|;
    assert path[n - |seg| - 1] == '/';
    assert path[n - |seg|..] == seg;
  }

  /** The path the client opens for a room is routed to the captions server,
      and the server reads back the same room id, whenever the id has no '/'. */
  lemma RouteClientPaths(roomId: RoomId)
    requires '/' !in roomId
    ensures Route(SignalingPath) == SignalingEndpoint
    ensures Route(CaptionsPath(roomId)) == CaptionsEndpoint
    ensures LastSegment(CaptionsPath(roomId)) == roomId
  {
    var prefix := "/ws/captions";
    assert CaptionsPath(roomId) == prefix + "/" + roomId;
    LastSegmentAfterSlash(prefix, roomId);
    assert CaptionsPath(roomId)[..|CaptionsPrefix|] == CaptionsPrefix;
  }
}

/** The captions socket server of server/server.js: every frame a client
    sends is relayed verbatim to every other open client, whatever room path
    each was opened under. */
module CaptionRelay {
  import opened Wire
  import opened Upgrade

  /** A connection of the captions server, identified by the order of acceptance. */
  type ClientId = nat

  /** A raw caption frame; the relay does not parse it. */
  type Frame = string

  /** The room id read from the path (only logged by the server), whether the
      socket is OPEN, and the frames sent to it. */
  datatype CaptionClient = CaptionClient(roomId: RoomId, open: bool, outbox: seq<Frame>)

  /** The client table after `sender`'s frame has been relayed: every other
      open client has the frame appended; nothing else changes. */
  ghost function Relayed(clients: map<ClientId, CaptionClient>, sender: ClientId, frame: Frame): (r: map<ClientId, CaptionClient>)
    ensures r.Keys == clients.Keys
    ensures forall c | c in clients :: r[c].open == clients[c].open
  {
    map c | c in clients ::
      if c != sender && clients[c].open then clients[c].(outbox := clients[c].outbox + [frame]) else clients[c]
  }

  /** What one relayed frame does: it is never echoed to its sender, it reaches
      every other open client whatever their room ids, and a client that is
      not open gets nothing. */
  lemma RelayedDeliveries(clients: map<ClientId, CaptionClient>, sender: ClientId, frame: Frame, c: ClientId)
    requires c in clients
    ensures c in Relayed(clients, sender, frame)
    ensures Relayed(clients, sender, frame).Keys == clients.Keys
    ensures c == sender ==> Relayed(clients, sender, frame)[c] == clients[c]
    ensures !clients[c].open ==> Relayed(clients, sender, frame)[c] == clients[c]
    ensures c != sender && clients[c].open ==>
      Relayed(clients, sender, frame)[c].outbox == clients[c].outbox + [frame]
      && Relayed(clients, sender, frame)[c].roomId == clients[c].roomId
  {
  }

  class CaptionServer {
    /** `captionsWss.clients`: the connections not yet closed. */
    var clients: map<ClientId, CaptionClient>
    /** Ids handed out so far. */
    var accepted: nat

    ghost predicate Valid()
      reads this
    {
      forall c | c in clients :: c < accepted
    }

    constructor ()
      ensures Valid() && clients == map[] && accepted == 0
    {
      clients, accepted := map[], 0;
    }

    /** A connection upgraded on `pathname`; it remembers the path's last segment. */
    method Accept(pathname: string) returns (id: ClientId)
      requires Valid() && Route(pathname) == CaptionsEndpoint
      modifies this
      ensures Valid()
      ensures id == old(accepted) && id !in old(clients) && accepted == old(accepted) + 1
      ensures clients == old(clients)[id := CaptionClient(LastSegment(pathname), true, [])]
    {
      id := accepted;
      clients := clients[id := CaptionClient(LastSegment(pathname), true, [])];
      accepted := accepted + 1;
    }

    /** The `message` handler: a loop over the client set, in any order. */
    method Broadcast(sender: ClientId, frame: Frame)
      requires Valid() && sender in clients && clients[sender].open
      modifies this
      ensures Valid() && accepted == old(accepted)
      ensures clients == Relayed(old(clients), sender, frame)
    {
      var out := clients;
      var pending := clients.Keys;
      while pending != {}
        invariant pending <= clients.Keys && out.Keys == clients.Keys
        invariant forall c | c in clients ::
          out[c] == if c in pending then clients[c] else Relayed(clients, sender, frame)[c]
        decreases pending
      {
        var c :| c in pending;
        if c != sender && out[c].open {
          out := out[c := out[c].(outbox := out[c].outbox + [frame])];
        }
        pending := pending - {c};
      }
      clients := out;
    }

    /** The closing handshake has started: the socket stays in the set but
        is no longer OPEN. */
    method BeginClose(id: ClientId)
      requires Valid() && id in clients
      modifies this
      ensures Valid() && accepted == old(accepted)
      ensures clients == old(clients)[id := old(clients)[id].(open := false)]
    {
      clients := clients[id := clients[id].(open := false)];
    }

    /** The connection has closed and leaves the set. */
    method Close(id: ClientId)
      requires Valid()
      modifies this
      ensures Valid() && accepted == old(accepted)
      ensures clients == old(clients) - {id}
    {
      clients := clients - {id};
    }
  }

  /** A caption sent on a connection opened under room "abc" reaches a
      connection opened under room "xyz": the broadcast is relay-wide. */
  method CrossRoomScenario() returns (toSender: seq<Frame>, toOtherRoom: seq<Frame>, otherRoom: RoomId)
    ensures toSender == [] && toOtherRoom == ["hello"] && otherRoom == "xyz"
  {
    var server := new CaptionServer();
    RouteClientPaths("abc");
    RouteClientPaths("xyz");
    var a := server.Accept(CaptionsPath("abc"));
    var x := server.Accept(CaptionsPath("xyz"));
    server.Broadcast(a, "hello");
    toSender, toOtherRoom, otherRoom := server.clients[a].outbox, server.clients[x].outbox, server.clients[x].roomId;
  }
}
