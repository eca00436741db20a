/** The client's negotiation handlers (`initialiseWebRTC`) and the media
    gate (`mediaStream`).  Each asynchronous continuation is one atomic step
    that the environment invokes when the awaited operation completes. */
module WebRTC {
  import opened Protocol
  import opened Peer
  import opened App
  import Constants

  // ---------------------------------------------------------------------
  // The session list

  /** `find` on the session list: the first session with that player. */
  function FindSession(s: seq<Session>, id: SocketId): (r: Option<nat>)
    ensures r.Some? ==> r.value < |s| && s[r.value].playerId == id
    ensures r.Some? ==> forall j :: 0 <= j < r.value ==> s[j].playerId != id
    ensures r.None? <==> forall j :: 0 <= j < |s| ==> s[j].playerId != id
  {
    if s == [] then None
    else if s[0].playerId == id then Some(0)
    else
      match FindSession(s[1..], id)
      case None =>
        assert forall j :: 1 <= j < |s| ==> s[j] == s[1..][j - 1];
        None
      case Some(k) => Some(k + 1)
  }

  /** Number of sessions held with one player. */
  function CountPeer(s: seq<Session>, id: SocketId): nat {
    if s == [] then 0 else (if s[0].playerId == id then 1 else 0) + CountPeer(s[1..], id)
  }

  /** `filter(instance => instance.playerId !== id)`. */
  function WithoutPeer(s: seq<Session>, id: SocketId): (r: seq<Session>)
    ensures CountPeer(r, id) == 0
    ensures |r| == |s| - CountPeer(s, id)
    ensures forall i :: 0 <= i < |r| ==> r[i] in s && r[i].playerId != id
    ensures forall i :: 0 <= i < |s| && s[i].playerId != id ==> s[i] in r
  {
    if s == [] then []
    else if s[0].playerId == id then WithoutPeer(s[1..], id)
    else [s[0]] + WithoutPeer(s[1..], id)
  }

  /** The connections the session list refers to. */
  function Instances(s: seq<Session>): set<PeerConnection> {
    set i | 0 <= i < |s| :: s[i].instance
  }

  /** The connection of the first session with that player, if any. */
  function FirstInstance(s: seq<Session>, id: SocketId): set<PeerConnection> {
    match FindSession(s, id)
    case Some(k) => {s[k].instance}
    case None => {}
  }

  /** Appending a session never checks for an existing one: each
      `playerJoined` or `offer` adds one more session for that player. */
  lemma {:induction false} AppendAddsSession(s: seq<Session>, e: Session)
    ensures CountPeer(s + [e], e.playerId) == CountPeer(s, e.playerId) + 1
    ensures forall q :: q != e.playerId ==> CountPeer(s + [e], q) == CountPeer(s, q)
  {
    if s == [] {
      assert s + [e] == [e];
    } else {
      assert (s + [e])[1..] == s[1..] + [e];
      AppendAddsSession(s[1..], e);
    }
  }

  /** Filtering out a player works piecewise, so the remaining sessions
      keep their relative order. */
  lemma {:induction false} WithoutPeerDistributes(a: seq<Session>, b: seq<Session>, id: SocketId)
    ensures WithoutPeer(a + b, id) == WithoutPeer(a, id) + WithoutPeer(b, id)
  {
    if a == [] {
      assert a + b == b;
    } else {
      assert (a + b)[1..] == a[1..] + b;
      WithoutPeerDistributes(a[1..], b, id);
    }
  }

  /** Filtering out a player without sessions changes nothing. */
  lemma {:induction false} WithoutAbsentPeer(s: seq<Session>, id: SocketId)
    requires CountPeer(s, id) == 0
    ensures WithoutPeer(s, id) == s
  {
    if s != [] {
      WithoutAbsentPeer(s[1..], id);
    }
  }

  // ---------------------------------------------------------------------
  // Capacity and room id

  /** The events a connect request produces and the room id afterwards. */
  datatype Reply = Reply(emits: seq<ClientEvent>, roomId: Option<RoomId>)

  /** `connectRequest`: refuse at capacity; otherwise answer with the
      current room, minting `minted` when there is none. */
  function ConnectRequestReply(count: nat, roomId: Option<RoomId>, requester: SocketId, minted: RoomId): (r: Reply)
    ensures count >= Constants.MaxConnections <==> r.emits == [RoomFull(requester)]
    ensures count >= Constants.MaxConnections ==> r.roomId == roomId
    ensures count < Constants.MaxConnections ==>
              |r.emits| > 0 && r.roomId.Some? && r.emits[|r.emits| - 1] == ConnectResponse(requester, r.roomId.value)
    ensures IsSet(roomId) ==> r.roomId == roomId
    ensures count < Constants.MaxConnections && !IsSet(roomId) ==>
              r.emits[0] == CreateRoom(minted) && r.roomId == Some(minted)
    ensures forall i :: 0 <= i < |r.emits| && r.emits[i].CreateRoom? ==>
              i == 0 && count < Constants.MaxConnections && !IsSet(roomId)
    ensures count < Constants.MaxConnections ==>
              r.emits == (if IsSet(roomId) then [ConnectResponse(requester, roomId.value)]
                          else [CreateRoom(minted), ConnectResponse(requester, minted)])
  {
    if count >= Constants.MaxConnections then Reply([RoomFull(requester)], roomId)
    else if IsSet(roomId) then Reply([ConnectResponse(requester, roomId.value)], roomId)
    else Reply([CreateRoom(minted), ConnectResponse(requester, minted)], Some(minted))
  }

  // ---------------------------------------------------------------------
  // ICE candidates

  /** What happens to a remote candidate. */
  datatype IceRoute = Drop | ApplyNow | Hold

  function RouteCandidate(hasSession: bool, remoteSet: bool): (r: IceRoute)
    ensures r == Drop <==> !hasSession
    ensures r == ApplyNow <==> hasSession && remoteSet
    ensures r == Hold <==> hasSession && !remoteSet
  {
    if !hasSession then Drop else if remoteSet then ApplyNow else Hold
  }

  type Queue = map<SocketId, seq<Candidate>>

  /** `iceCandidateQueue.get(id) || []`. */
  function Queued(q: Queue, id: SocketId): (r: seq<Candidate>)
    ensures id in q ==> r == q[id]
    ensures id !in q ==> r == []
  {
    if id in q then q[id] else []
  }

  /** One candidate held for `id`: appended to its queue, others untouched. */
  function Enqueued(q: Queue, id: SocketId, c: Candidate): (r: Queue)
    ensures Queued(r, id) == Queued(q, id) + [c]
    ensures r.Keys == q.Keys + {id}
    ensures forall k :: k != id ==> Queued(r, k) == Queued(q, k)
  {
    q[id := Queued(q, id) + [c]]
  }

  /** Several candidates held for `id`, in arrival order. */
  function EnqueuedAll(q: Queue, id: SocketId, cs: seq<Candidate>): Queue {
    if cs == [] then q else Enqueued(EnqueuedAll(q, id, cs[..|cs| - 1]), id, cs[|cs| - 1])
  }

  /** Held candidates come out of the queue in the order they arrived, and
      no other player's queue is touched. */
  lemma {:induction false} QueueKeepsArrivalOrder(q: Queue, id: SocketId, cs: seq<Candidate>)
    ensures Queued(EnqueuedAll(q, id, cs), id) == Queued(q, id) + cs
    ensures forall k :: k != id ==> Queued(EnqueuedAll(q, id, cs), k) == Queued(q, k)
  {
    if cs != [] {
      QueueKeepsArrivalOrder(q, id, cs[..|cs| - 1]);
      assert cs == cs[..|cs| - 1] + [cs[|cs| - 1]];
    }
  }

  // ---------------------------------------------------------------------
  // The media gate

  /** One look at the `isStream` flags by `mediaStream`. */
  datatype MediaStep = Wait | Reuse | Capture

  function MediaGate(creating: bool, created: bool): (r: MediaStep)
    ensures r == Wait <==> creating
    ensures r == Capture <==> !creating && !created
  {
    if creating then Wait else if created then Reuse else Capture
  }

  /** Captures started by `n` successive looks at the flags when no
      `localStream` change happens in between. */
  function CapturesOver(creating: bool, created: bool, n: nat): nat
    decreases n
  {
    if n == 0 then 0
    else match MediaGate(creating, created)
      case Capture => 1 + CapturesOver(true, created, n - 1)
      case _ => CapturesOver(creating, created, n - 1)
  }

  /** Concurrent negotiations open the camera at most once, and not at all
      while a capture is pending or a stream is held.  Stated of the
      `CapturesOver` fold over successive looks at the flags, each a
      `MediaGate` step as `AcquireMedia` takes it, with no change of
      `localStream` in between; it is not stated of `Client.captures`
      across a sequence of `AcquireMedia` calls. */
  lemma {:induction false} CaptureAtMostOnce(creating: bool, created: bool, n: nat)
    ensures CapturesOver(creating, created, n) <= 1
    ensures creating || created ==> CapturesOver(creating, created, n) == 0
    decreases n
  {
    if n > 0 {
      CaptureAtMostOnce(creating, created, n - 1);
      CaptureAtMostOnce(true, created, n - 1);
    }
  }

  // ---------------------------------------------------------------------
  // Handlers

  /** `connectRequest`: the session list is only read. */
  method OnConnectRequest(c: Client, requester: SocketId, minted: RoomId)
    modifies c`outbox, c`roomId
    ensures c.outbox == old(c.outbox) + ConnectRequestReply(|c.sessions|, old(c.roomId), requester, minted).emits
    ensures c.roomId == ConnectRequestReply(|c.sessions|, old(c.roomId), requester, minted).roomId
    ensures c.sessions == old(c.sessions)
  {
    if |c.sessions| >= Constants.MaxConnections {
      c.outbox := c.outbox + [RoomFull(requester)];
    } else if IsSet(c.roomId) {
      c.outbox := c.outbox + [ConnectResponse(requester, c.roomId.value)];
    } else {
      c.outbox := c.outbox + [CreateRoom(minted)];
      c.outbox := c.outbox + [ConnectResponse(requester, minted)];
      c.roomId := Some(minted);
    }
  }

  /** `connectResponse`: join the offered room and adopt it. */
  method OnConnectResponse(c: Client, roomId: RoomId)
    modifies c`outbox, c`roomId
    ensures c.outbox == old(c.outbox) + [JoinRoom(roomId)]
    ensures c.roomId == Some(roomId)
  {
    c.outbox := c.outbox + [JoinRoom(roomId)];
    c.roomId := Some(roomId);
  }

  /** `playerJoined` (this side offers) and `offer` (this side answers)
      both start by appending a session with a new connection. */
  method OpenSession(c: Client, peerId: SocketId) returns (conn: PeerConnection)
    modifies c`sessions
    ensures fresh(conn) && !conn.closed && conn.remoteDescription == None && conn.localDescription == None
    ensures conn.addedCandidates == [] && conn.senders == []
    ensures c.sessions == old(c.sessions) + [Session(peerId, conn)]
  {
    conn := new PeerConnection();
    c.sessions := c.sessions + [Session(peerId, conn)];
  }

  /** The `forEach` that adds a stream's tracks while the connection is open. */
  method AddTracks(conn: PeerConnection, tracks: seq<MediaTrack>)
    modifies conn
    ensures conn.senders == old(conn.senders) + (if old(conn.closed) then [] else tracks)
    ensures conn.closed == old(conn.closed) && conn.addedCandidates == old(conn.addedCandidates)
    ensures conn.remoteDescription == old(conn.remoteDescription)
    ensures conn.localDescription == old(conn.localDescription)
  {
    var i := 0;
    while i < |tracks|
      invariant 0 <= i <= |tracks|
      invariant conn.senders == old(conn.senders) + (if old(conn.closed) then [] else tracks[..i])
      invariant conn.closed == old(conn.closed) && conn.addedCandidates == old(conn.addedCandidates)
      invariant conn.remoteDescription == old(conn.remoteDescription)
      invariant conn.localDescription == old(conn.localDescription)
    {
      if !conn.closed {
        conn.AddTrack(tracks[i]);
      }
      i := i + 1;
    }
  }

  /** One pass of `mediaStream` over the flags: wait while a capture is
      pending, reuse a held stream, or start the one capture. */
  method AcquireMedia(c: Client, conn: PeerConnection) returns (step: MediaStep)
    modifies c`creating, c`captures, conn
    ensures step == MediaGate(old(c.creating), old(c.created))
    ensures step != Capture ==> c.creating == old(c.creating) && c.captures == old(c.captures)
    ensures step == Capture ==> c.creating && c.captures == old(c.captures) + 1
    ensures step == Reuse ==>
              conn.senders == old(conn.senders) +
                (if c.localStream == null || old(conn.closed) then [] else c.localStream.tracks)
    ensures step != Reuse ==> conn.senders == old(conn.senders)
    ensures conn.closed == old(conn.closed) && conn.addedCandidates == old(conn.addedCandidates)
    ensures conn.remoteDescription == old(conn.remoteDescription)
    ensures conn.localDescription == old(conn.localDescription)
  {
    if c.creating {
      return Wait;
    }
    if c.created {
      if c.localStream != null {
        AddTracks(conn, c.localStream.tracks);
      }
      return Reuse;
    }
    c.creating := true;
    c.captures := c.captures + 1;
    step := Capture;
  }

  /** The capture resolved: hold the stream and add its tracks.  A rejected
      capture has no handler, so `creating` stays true. */
  method OnMediaCaptured(c: Client, conn: PeerConnection, stream: MediaStream)
    modifies c`localStream, conn
    ensures c.localStream == stream
    ensures conn.senders == old(conn.senders) + (if old(conn.closed) then [] else stream.tracks)
    ensures conn.closed == old(conn.closed) && conn.addedCandidates == old(conn.addedCandidates)
    ensures conn.remoteDescription == old(conn.remoteDescription)
    ensures conn.localDescription == old(conn.localDescription)
  {
    c.localStream := stream;
    AddTracks(conn, stream.tracks);
  }

  /** The offerer's media callback, with `createOffer` resolved to `offer`. */
  method SendOffer(c: Client, conn: PeerConnection, peerId: SocketId, offer: Sdp)
    modifies c`outbox, conn`localDescription
    ensures !old(conn.closed) ==>
              conn.localDescription == Some(offer) && c.outbox == old(c.outbox) + [Offer(offer, peerId)]
    ensures old(conn.closed) ==>
              conn.localDescription == old(conn.localDescription) && c.outbox == old(c.outbox)
  {
    if !conn.closed {
      conn.localDescription := Some(offer);
      c.outbox := c.outbox + [Offer(offer, peerId)];
    }
  }

  /** `iceCandidateQueue` drained into one connection, in queue order. */
  method FlushQueue(c: Client, peerId: SocketId, conn: PeerConnection)
    modifies c`iceCandidateQueue, conn
    ensures conn.addedCandidates == old(conn.addedCandidates) + Queued(old(c.iceCandidateQueue), peerId)
    ensures c.iceCandidateQueue == old(c.iceCandidateQueue) - {peerId}
    ensures conn.closed == old(conn.closed) && conn.senders == old(conn.senders)
    ensures conn.remoteDescription == old(conn.remoteDescription)
    ensures conn.localDescription == old(conn.localDescription)
  {
    var candidates := Queued(c.iceCandidateQueue, peerId);
    var i := 0;
    while i < |candidates|
      invariant 0 <= i <= |candidates|
      invariant conn.addedCandidates == old(conn.addedCandidates) + candidates[..i]
      invariant c.iceCandidateQueue == old(c.iceCandidateQueue)
      invariant conn.closed == old(conn.closed) && conn.senders == old(conn.senders)
      invariant conn.remoteDescription == old(conn.remoteDescription)
      invariant conn.localDescription == old(conn.localDescription)
    {
      conn.AddIceCandidate(candidates[i]);
      i := i + 1;
    }
    assert candidates[..i] == candidates;
    c.iceCandidateQueue := c.iceCandidateQueue - {peerId};
  }

  /** The answerer's media callback: apply the offer, then drain the
      candidates that arrived before it. */
  method AcceptOffer(c: Client, conn: PeerConnection, peerId: SocketId, offer: Sdp)
    modifies c`iceCandidateQueue, conn
    ensures !old(conn.closed) ==>
              conn.remoteDescription == Some(offer) &&
              conn.addedCandidates == old(conn.addedCandidates) + Queued(old(c.iceCandidateQueue), peerId) &&
              c.iceCandidateQueue == old(c.iceCandidateQueue) - {peerId}
    ensures old(conn.closed) ==>
              conn.remoteDescription == old(conn.remoteDescription) &&
              conn.addedCandidates == old(conn.addedCandidates) &&
              c.iceCandidateQueue == old(c.iceCandidateQueue)
    ensures conn.closed == old(conn.closed) && conn.senders == old(conn.senders)
    ensures conn.localDescription == old(conn.localDescription)
  {
    if !conn.closed {
      conn.remoteDescription := Some(offer);
      FlushQueue(c, peerId, conn);
    }
  }

  /** `createAnswer` resolved: set it locally and send it back.  The emit
      does not depend on the local description being accepted. */
  method SendAnswer(c: Client, conn: PeerConnection, peerId: SocketId, answer: Sdp)
    modifies c`outbox, conn`localDescription
    ensures c.outbox == old(c.outbox) + [Answer(answer, peerId)]
    ensures conn.localDescription == if old(conn.closed) then old(conn.localDescription) else Some(answer)
  {
    if !conn.closed {
      conn.localDescription := Some(answer);
    }
    c.outbox := c.outbox + [Answer(answer, peerId)];
  }

  /** `answer`: on the first session with that player, apply it and drain
      that player's held candidates; a closed connection rejects it. */
  method OnAnswer(c: Client, peerId: SocketId, answer: Sdp)
    modifies c`iceCandidateQueue, FirstInstance(c.sessions, peerId)
    ensures c.sessions == old(c.sessions)
    ensures FindSession(c.sessions, peerId).None? ==> c.iceCandidateQueue == old(c.iceCandidateQueue)
    ensures FindSession(c.sessions, peerId).Some? ==>
              var conn := c.sessions[FindSession(c.sessions, peerId).value].instance;
              if old(conn.closed) then
                c.iceCandidateQueue == old(c.iceCandidateQueue) && unchanged(conn)
              else
                conn.remoteDescription == Some(answer) &&
                conn.addedCandidates == old(conn.addedCandidates) + Queued(old(c.iceCandidateQueue), peerId) &&
                c.iceCandidateQueue == old(c.iceCandidateQueue) - {peerId} &&
                !conn.closed && conn.localDescription == old(conn.localDescription) &&
                conn.senders == old(conn.senders)
  {
    var k := FindSession(c.sessions, peerId);
    if k.Some? {
      var conn := c.sessions[k.value].instance;
      if !conn.closed {
        conn.remoteDescription := Some(answer);
        FlushQueue(c, peerId, conn);
      }
    }
  }

  /** `iceCandidate`: drop it without a session, apply it once the remote
      description is set, otherwise hold it. */
  method OnIceCandidate(c: Client, peerId: SocketId, candidate: Candidate)
    modifies c`iceCandidateQueue, FirstInstance(c.sessions, peerId)
    ensures c.sessions == old(c.sessions)
    ensures var k := FindSession(c.sessions, peerId);
            match RouteCandidate(k.Some?, k.Some? && old(c.sessions[k.value].instance.remoteDescription).Some?)
            case Drop => c.iceCandidateQueue == old(c.iceCandidateQueue)
            case ApplyNow =>
              var conn := c.sessions[k.value].instance;
              conn.addedCandidates == old(conn.addedCandidates) + [candidate] &&
              c.iceCandidateQueue == old(c.iceCandidateQueue) &&
              conn.closed == old(conn.closed) && conn.senders == old(conn.senders) &&
              conn.remoteDescription == old(conn.remoteDescription) &&
              conn.localDescription == old(conn.localDescription)
            case Hold =>
              unchanged(c.sessions[k.value].instance) &&
              c.iceCandidateQueue == Enqueued(old(c.iceCandidateQueue), peerId, candidate)
  {
    var k := FindSession(c.sessions, peerId);
    if k.Some? {
      var conn := c.sessions[k.value].instance;
      if conn.remoteDescription.Some? {
        conn.AddIceCandidate(candidate);
      } else {
        c.iceCandidateQueue := Enqueued(c.iceCandidateQueue, peerId, candidate);
      }
    }
  }

  /** The `onicecandidate` handler: forward every discovered candidate. */
  method OnLocalIceCandidate(c: Client, peerId: SocketId, candidate: Option<Candidate>)
    modifies c`outbox
    ensures c.outbox == old(c.outbox) + (if candidate.Some? then [IceCandidate(candidate.value, peerId)] else [])
  {
    if candidate.Some? {
      c.outbox := c.outbox + [IceCandidate(candidate.value, peerId)];
    }
  }

  /** A connection's descriptions, candidates and senders are as they were. */
  twostate predicate Kept(conn: PeerConnection)
    reads conn
  {
    conn.remoteDescription == old(conn.remoteDescription) &&
    conn.localDescription == old(conn.localDescription) &&
    conn.addedCandidates == old(conn.addedCandidates) &&
    conn.senders == old(conn.senders)
  }

  /** Close every connection of a session list. */
  method CloseAll(s: seq<Session>)
    modifies Instances(s)
    ensures forall i :: 0 <= i < |s| ==> s[i].instance.closed
    ensures forall i :: 0 <= i < |s| ==> Kept(s[i].instance)
  {
    var i := 0;
    while i < |s|
      invariant 0 <= i <= |s|
      invariant forall j :: 0 <= j < i ==> s[j].instance.closed
      invariant forall j :: 0 <= j < |s| ==> Kept(s[j].instance)
    {
      s[i].instance.Close();
      i := i + 1;
    }
  }

  /** `toExitRoom`: naming this client tears everything down; naming another
      player closes its FIRST session only, yet filters out all of them. */
  method OnToExitRoom(c: Client, leaver: SocketId)
    modifies c`sessions,
             if leaver == c.localId then Instances(c.sessions) else FirstInstance(c.sessions, leaver)
    ensures leaver == c.localId ==>
              c.sessions == [] && forall i :: 0 <= i < |old(c.sessions)| ==> old(c.sessions)[i].instance.closed
    ensures leaver != c.localId ==> c.sessions == WithoutPeer(old(c.sessions), leaver)
    ensures leaver != c.localId && FindSession(old(c.sessions), leaver).Some? ==>
              old(c.sessions)[FindSession(old(c.sessions), leaver).value].instance.closed
    ensures forall i :: 0 <= i < |old(c.sessions)| ==> Kept(old(c.sessions)[i].instance)
  {
    if leaver == c.localId {
      CloseAll(c.sessions);
      c.sessions := [];
    } else {
      var k := FindSession(c.sessions, leaver);
      if k.Some? {
        c.sessions[k.value].instance.Close();
      }
      c.sessions := WithoutPeer(c.sessions, leaver);
    }
  }
}
