/** Shared vocabulary of the presence-and-signalling protocol: connection
    identifiers, opaque negotiation payloads, and the events that travel
    between a client and the server over the socket. */
module Protocol {

  datatype Option<T> = None | Some(value: T)

  /** A socket.io connection identifier. */
  type SocketId = string
  /** A room token minted by a client. */
  type RoomId = string
  /** An opaque session description (offer or answer). */
  type Sdp = string
  /** An opaque ICE candidate. */
  type Candidate = string

  /** JavaScript truthiness of a nullable string: null and "" are both false. */
  predicate IsSet(s: Option<string>) {
    s.Some? && s.value != ""
  }

  /** One entry of the server's presence list. */
  datatype PlayerRecord = PlayerRecord(id: SocketId, name: string, x: real, y: real)

  function Ids(s: seq<PlayerRecord>): (r: seq<SocketId>)
    ensures |r| == |s|
    ensures forall i :: 0 <= i < |s| ==> r[i] == s[i].id
  {
    if s == [] then [] else [s[0].id] + Ids(s[1..])
  }

  /** No identifier occurs twice in the list. */
  predicate UniqueIds(s: seq<PlayerRecord>) {
    forall i, j :: 0 <= i < j < |s| ==> s[i].id != s[j].id
  }

  /** Some entry of the list carries identifier `id`. */
  predicate HasId(s: seq<PlayerRecord>, id: SocketId) {
    exists i :: 0 <= i < |s| && s[i].id == id
  }

  /** Every entry of `id` filtered out, order kept. */
  function WithoutId(s: seq<PlayerRecord>, id: SocketId): (r: seq<PlayerRecord>)
    ensures !HasId(r, id)
    ensures forall p :: p in r <==> p in s && p.id != id
    ensures |r| <= |s|
  {
    if s == [] then []
    else (if s[0].id == id then [] else [s[0]]) + WithoutId(s[1..], id)
  }

  /** Filtering out an absent identifier changes nothing. */
  lemma {:induction false} WithoutAbsent(s: seq<PlayerRecord>, id: SocketId)
    requires !HasId(s, id)
    ensures WithoutId(s, id) == s
  {
    if s != [] {
      forall i | 0 <= i < |s| - 1 ensures s[1..][i].id != id {
        assert s[1..][i] == s[i + 1];
      }
      WithoutAbsent(s[1..], id);
    }
  }

  /** Events a client emits to the server, with the payload it sends. */
  datatype ClientEvent =
    | Register(name: string, x: real, y: real)
    | Move(x: real, y: real)
    | ConnectToPlayer(playerId: SocketId)
    | RoomFull(playerId: SocketId)
    | ConnectResponse(playerId: SocketId, roomId: RoomId)
    | CreateRoom(roomId: RoomId)
    | JoinRoom(roomId: RoomId)
    | Offer(offer: Sdp, playerId: SocketId)
    | Answer(answer: Sdp, playerId: SocketId)
    | IceCandidate(candidate: Candidate, playerId: SocketId)
    | ExitRoom(roomId: RoomId)

  /** Events the server delivers to clients; `playerId` is always the
      identifier of the socket that caused the event. */
  datatype ServerEvent =
    | PlayersData(players: seq<PlayerRecord>)
    | ConnectRequest(playerId: SocketId)
    | RoomFullNotice(playerId: SocketId)
    | ConnectAccepted(playerId: SocketId, roomId: RoomId)
    | PlayerJoined(playerId: SocketId)
    | OfferRelayed(offer: Sdp, playerId: SocketId)
    | AnswerRelayed(answer: Sdp, playerId: SocketId)
    | IceCandidateRelayed(candidate: Candidate, playerId: SocketId)
    | ToExitRoom(playerId: SocketId)
}
