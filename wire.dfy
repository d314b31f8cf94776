/** The JSON messages exchanged between the browser client and the relay
    (the SignalingMessage and CaptionMessage types of src/utils/websocket.ts),
    with JSON parsing reduced to an already-parsed value. */
module Wire {

  datatype Option<+T> = None | Some(value: T)

  type PeerId = string
  type RoomId = string

  /** The opaque `data` field of a signaling message: a session description
      or an ICE candidate, carried verbatim. */
  datatype Payload = Payload(json: string)

  /** The `type` tag of a signaling message; any other tag is kept as Unknown. */
  datatype Kind =
    | JoinRoom | Offer | Answer | IceCandidate | PeerJoined | PeerLeft | RoomPeers
    | Unknown(tag: string)

  datatype Message = Message(
    kind: Kind,
    roomId: RoomId,
    peerId: Option<PeerId>,
    data: Option<Payload>,
    peers: Option<seq<PeerId>>)

  /** A caption/transcript entry as the client receives it. */
  datatype Caption = Caption(
    speaker: string, text: string, translation: string, timestamp: int, language: string)

  /** JavaScript truthiness of an optional string: present and not empty. */
  predicate Truthy(s: Option<string>) {
    s.Some? && s.value != ""
  }

  function JoinRoomMsg(roomId: RoomId): Message {
    Message(JoinRoom, roomId, None, None, None)
  }

  function PeerJoinedMsg(roomId: RoomId, p: PeerId): Message {
    Message(PeerJoined, roomId, Some(p), None, None)
  }

  function PeerLeftMsg(roomId: RoomId, p: PeerId): Message {
    Message(PeerLeft, roomId, Some(p), None, None)
  }

  function RoomPeersMsg(roomId: RoomId, peers: seq<PeerId>): Message {
    Message(RoomPeers, roomId, None, None, Some(peers))
  }

  /** An offer, answer or ice-candidate addressed to peer `p`. */
  function DirectedMsg(kind: Kind, roomId: RoomId, p: PeerId, data: Payload): Message {
    Message(kind, roomId, Some(p), Some(data), None)
  }

  /** The path of the signaling endpoint the client opens. */
  const SignalingPath: string := "/ws/signaling"

  /** The prefix of every captions endpoint path. */
  const CaptionsPrefix: string := "/ws/captions/"

  /** The path of the captions endpoint the client opens for a room. */
  function CaptionsPath(roomId: RoomId): string {
    CaptionsPrefix + roomId
  }
}

/** The keys of a JavaScript Map, in the insertion order the Map keeps and
    its iteration (`forEach`, `values()`) follows. */
module KeyOrder {

  predicate Distinct<T(==)>(s: seq<T>) {
    forall i, j | 0 <= i < j < |s| :: s[i] != s[j]
  }

  /** `map.set(k, v)`: a new key goes last, an existing key keeps its place. */
  function Register<K(==,!new)>(keys: seq<K>, k: K): (r: seq<K>)
    ensures keys <= r && k in r
    ensures forall q :: q in r ==> q in keys || q == k
    ensures Distinct(keys) ==> Distinct(r)
  {
    if k in keys then keys else keys + [k]
  }

  /** `map.delete(k)`: the key leaves its place and the other keys keep their
      order (`UnregisterAt`); deleting a key that is not there changes nothing. */
  function Unregister<K(==,!new)>(keys: seq<K>, k: K): (r: seq<K>)
    ensures forall q :: q in r <==> q in keys && q != k
    ensures Distinct(keys) ==> Distinct(r) && |r| == if k in keys then |keys| - 1 else |keys|
    ensures k !in keys ==> r == keys
  {
    if keys == [] then []
    else
      assert Distinct(keys) ==> Distinct(keys[1..]) && keys[0] !in keys[1..];
      var rest := Unregister(keys[1..], k);
      if keys[0] == k then rest else assert keys == [keys[0]] + keys[1..]; [keys[0]] + rest
  }

  /** In a key list without repeats, deleting the key at index `i` leaves the
      keys before it and the keys after it, in their order. */
  lemma {:induction false} UnregisterAt<K(!new)>(keys: seq<K>, k: K, i: nat)
    requires Distinct(keys) && i < |keys| && keys[i] == k
    ensures Unregister(keys, k) == keys[..i] + keys[i + 1..]
  {
    if i > 0 {
      assert Distinct(keys[1..]) && keys[0] != k && keys[1..][i - 1] == k;
      UnregisterAt(keys[1..], k, i - 1);
      assert keys[..i] == [keys[0]] + keys[1..][..i - 1];
      assert keys[i + 1..] == keys[1..][i..];
    }
  }
}
