/** The client's React state and the effects that keep it consistent.
    The WebRTC handlers (module WebRTC) change the same state through the
    setters App hands them. */
module App {
  import opened Protocol
  import opened Peer

  /** One entry of `webRTCInstances`: the remote player and its connection. */
  datatype Session = Session(playerId: SocketId, instance: PeerConnection)

  /** What the session-list effect makes of the connection flag and the room:
      connected exactly when some session exists, and no room without one. */
  function SessionsReaction(count: nat, roomId: Option<RoomId>): (r: (bool, Option<RoomId>))
    ensures r.0 <==> count > 0
    ensures r.1 == None || r.1 == roomId
    ensures r.1 == roomId <==> count > 0 || roomId == None
  {
    if count == 0 then (false, None) else (true, roomId)
  }

  /** The `isStream` flags after `localStream` changed: capture is no longer
      in progress, and a stream is held exactly when one was set. */
  function StreamFlags(hasStream: bool): (r: (bool, bool))
    ensures !r.0
    ensures r.1 <==> hasStream
  {
    (false, hasStream)
  }

  class Client {
    /** `socket.id`. */
    const localId: SocketId
    var roomId: Option<RoomId>
    /** `webRTCInstances`. */
    var sessions: seq<Session>
    var localStream: MediaStream?
    var isWebRTCConnected: bool
    /** `isStream.current.creating` and `isStream.current.created`. */
    var creating: bool
    var created: bool
    /** The module-level `iceCandidateQueue` of the WebRTC handlers. */
    var iceCandidateQueue: map<SocketId, seq<Candidate>>
    /** Every event this client emitted on its socket, in order. */
    var outbox: seq<ClientEvent>
    /** How many times the camera and microphone were requested. */
    var captures: nat
    /** Whether the game exists, and the registry values the game reads. */
    var hasGame: bool
    var registryRoomId: Option<RoomId>
    var registryConnected: bool

    /** The initial state of the component. */
    constructor (localId: SocketId)
      ensures this.localId == localId
      ensures !creating && !created
      ensures roomId == None && sessions == [] && localStream == null && !isWebRTCConnected
      ensures iceCandidateQueue == map[] && outbox == [] && captures == 0
      ensures !hasGame && registryRoomId == None && !registryConnected
    {
      this.localId := localId;
      creating, created := false, false;
      roomId, sessions, localStream, isWebRTCConnected := None, [], null, false;
      iceCandidateQueue, outbox, captures := map[], [], 0;
      hasGame, registryRoomId, registryConnected := false, None, false;
    }

    /** The socket connected and the game was created. */
    method OnGameCreated()
      modifies this
      ensures hasGame
      ensures roomId == old(roomId) && sessions == old(sessions) && localStream == old(localStream)
      ensures isWebRTCConnected == old(isWebRTCConnected) && creating == old(creating) && created == old(created)
      ensures iceCandidateQueue == old(iceCandidateQueue) && outbox == old(outbox) && captures == old(captures)
      ensures registryRoomId == old(registryRoomId) && registryConnected == old(registryConnected)
    {
      hasGame := true;
    }

    /** The game reports a change of connection (its `isWebRTCConnected` event). */
    method OnGameConnectionEvent(connected: bool)
      modifies this`isWebRTCConnected
      ensures isWebRTCConnected == connected
    {
      isWebRTCConnected := connected;
    }

    /** Effect on `roomId`: mirror it into the game registry. */
    method OnRoomIdChanged()
      modifies this`registryRoomId
      ensures registryRoomId == if hasGame then roomId else old(registryRoomId)
    {
      if hasGame {
        registryRoomId := roomId;
      }
    }

    /** Effect on `isWebRTCConnected`: mirror it into the game registry. */
    method OnConnectedChanged()
      modifies this`registryConnected
      ensures registryConnected == if hasGame then isWebRTCConnected else old(registryConnected)
    {
      if hasGame {
        registryConnected := isWebRTCConnected;
      }
    }

    /** Effect on `webRTCInstances`. */
    method OnSessionsChanged()
      modifies this`isWebRTCConnected, this`roomId
      ensures (isWebRTCConnected, roomId) == SessionsReaction(|sessions|, old(roomId))
    {
      if |sessions| == 0 {
        isWebRTCConnected := false;
        roomId := None;
      } else {
        isWebRTCConnected := true;
      }
    }

    /** Effect on `localStream`. */
    method OnLocalStreamChanged()
      modifies this`creating, this`created
      ensures (creating, created) == StreamFlags(localStream != null)
    {
      creating := false;
      created := localStream != null;
    }

    /** Effect on `isWebRTCConnected` and `localStream`: a stream held while
        not connected has every track stopped and is dropped. */
    method OnConnectionOrStreamChanged()
      modifies this`localStream, if localStream == null then {} else set t | t in localStream.tracks
      ensures !old(isWebRTCConnected) && old(localStream) != null ==>
                localStream == null && forall t :: t in old(localStream).tracks ==> t.stopped
      ensures old(isWebRTCConnected) || old(localStream) == null ==> localStream == old(localStream)
      ensures old(isWebRTCConnected) && old(localStream) != null ==>
                forall t :: t in old(localStream).tracks ==> t.stopped == old(t.stopped)
    {
      if !isWebRTCConnected && localStream != null {
        StopMediaTracks();
      }
    }

    /** `stopMediaTracks`. */
    method StopMediaTracks()
      modifies this`localStream, if localStream == null then {} else set t | t in localStream.tracks
      ensures localStream == null
      ensures old(localStream) != null ==> forall t :: t in old(localStream).tracks ==> t.stopped
    {
      if localStream != null {
        var tracks := localStream.tracks;
        var i := 0;
        while i < |tracks|
          invariant 0 <= i <= |tracks|
          invariant forall j :: 0 <= j < i ==> tracks[j].stopped
          modifies set t | t in tracks
        {
          tracks[i].Stop();
          i := i + 1;
        }
      }
      localStream := null;
    }
  }
}
