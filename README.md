# VirtualMeet: presence, signalling and the office map

VirtualMeet is a 2-D virtual office. Each visitor walks a sprite over a tiled
map. Walking into another visitor opens a WebRTC video call with them.
Walking away again leaves the call.

This project models three parts of it:

- **The server** (module `Server`). It keeps the in-memory list of
  registered players, rebroadcasts it on every change, and relays the
  signalling events between two sockets. Rooms are socket.io rooms; every
  socket also sits in the room named by its own id.
- **The client's negotiation state** (modules `App`, `WebRTC`, `Peer`).
  This covers the React state of the page and the effects that keep it
  consistent, the handlers of the signalling events, the queue of ICE
  candidates that arrive before the remote description, and the gate that
  opens the camera at most once.
- **The game** (modules `GamePlayer`, `GamePlayers`, `OfficeScene`,
  `Constants`). This covers the local player's start and registration, the
  per-frame update (keys, proximity, leaving, position report), the
  reconciliation of the remote players with each `playersData` broadcast,
  and the tweens that glide them to their new positions.

The code is modelled as written, including these behaviours:

- A `move` from a socket that never registered throws before changing
  anything.
- When such a socket disconnects, `splice(-1, 1)` removes the last player
  of the list.
- Sessions are appended without a duplicate check.
- `toExitRoom` for another player closes that player's first session only,
  but filters out all of that player's sessions.
- A capture that is rejected leaves `creating` set for good.
- A target y of 0 skips the chained y tween, because `if (targetY)` is
  false for 0.

Each asynchronous continuation (a resolved promise, a tween completion, a
React effect) is one atomic method. The environment calls it when the
awaited thing completes. Every event a component emits is appended to an
`outbox` or `effects` sequence. The server records each emit together
with the set of sockets it reaches.

## Model

| member | source | states |
|---|---|---|
| Constants.HitboxHeight | src/Constants.ts:8-9 | The collision box is three quarters of the 32 px sprite height, i.e. 24 px. |
| Constants.HitboxOffsetY | src/game/classes/Player.ts:24 | The box is pushed down by the remaining quarter (8 px), so it ends at the bottom of the sprite. |
| Constants.GameSize | src/Constants.ts:1-6 | The map is 35 × 18 tiles of 16 px, i.e. 560 × 288 px. |
| Protocol.WithoutId | src/game/classes/Players.ts:15 | Filtering one identifier out leaves no entry with it and keeps every other entry; the server's splice is proved against it. |
| Protocol.WithoutAbsent | src/game/classes/Players.ts:15 | Filtering out an identifier that is not listed leaves the list unchanged. |
| Server.Join | server.js:65-74 | Joining a room adds exactly that socket to exactly that room. |
| Server.Leave | server.js:97-102 | Leaving removes exactly that socket from that room; an emptied room disappears. |
| Server.Members | server.js:47-49 | The sockets an emit to a room reaches: exactly the room's members, nobody for an unknown room. |
| Server.NoticeRooms | server.js:105-106 | The rooms `disconnecting` sends an exit notice to: exactly those the socket is in, other than its own-id room, including rooms where it is alone. |
| Server.ExitNotice | server.js:107-109 | A room's exit notice carries the leaver's identifier and reaches exactly the room's other members: never the leaver, nobody outside the room. |
| Server.LeaveAll | server.js:104-114 | After a disconnect the socket is in no room, and every other membership is kept. |
| Server.FindIndex | server.js:21-23 | Gives the first index with that identifier, or -1 exactly when none is listed. |
| Server.SpliceOne | server.js:112 | `splice(start, 1)`: a start past the end removes nothing, a start in range removes that element, a negative start counts back from the end, and one before the start removes the first element. |
| Server.RemoveSender | server.js:112 | A registered sender loses its first entry; for an unregistered one the list loses its last entry. |
| Server.MoveTo | server.js:34-39 | Only the sender's coordinates change; identifiers, names and every other entry stay. |
| Server.Forwarded | server.js:52-95 | A relayed event is tagged with the sender, never with a list of players. |
| Server.Readdressed | server.js:52-95 | Readdressing gives one of the five relayable requests, addressed to the given recipient. |
| Server.RelayPreservesPayload | server.js:52-95 | Exactly the five relayed events are forwarded; each names the sender and, addressed back to its recipient, gives the original request. |
| Server.RemoveRegisteredSender | server.js:112 | For a registered sender in a duplicate-free list, the splice removes exactly that sender's entry and keeps the order. |
| Server.DisconnectUnregisteredRemovesLast | server.js:112 | As written, an unregistered socket's disconnect removes the last player, not nobody. |
| Server.SpliceKeepsUnique | server.js:112 | Any single splice keeps identifiers unique. |
| Server.RegisterKeepsUnique | server.js:21-31 | Appending an unlisted identifier keeps identifiers unique. |
| Server.Server.constructor | server.js:13 | The registry starts with no players, rooms, sockets or emits. |
| Server.Server.OnConnection | server.js:19 | A connection adds the socket and puts it in its own-id room; the list is unchanged. |
| Server.Server.Register | server.js:20-32 | A listed sender changes nothing; otherwise the sender is appended once and the new list goes to every socket. Identifiers stay unique. |
| Server.Server.Move | server.js:34-39 | An unregistered sender gets the error outcome and nothing changes; otherwise only its coordinates change and the list is broadcast. |
| Server.Server.ConnectToPlayer | server.js:41-50 | A connect request reaches the target's own room only when the target is registered. |
| Server.Server.Relay | server.js:52-95 | The forwarded event goes to the named recipient's room, tagged with the sender; no other state changes. |
| Server.Server.CreateRoom | server.js:65-67 | The sender joins the room and nobody is told. |
| Server.Server.JoinRoom | server.js:69-74 | The sender joins; the earlier members, never the sender, are told. |
| Server.Server.ExitRoom | server.js:97-102 | Every member, the leaver included, is told; then the leaver is no longer in the room. |
| Server.Server.Disconnecting | server.js:104-114 | Exactly one exit notice per room other than its own-id room, in the order the rooms were visited, each room once (reaching nobody where the socket is alone), none to the leaver; then the splice and a broadcast of the new list; the socket leaves every room. |
| Server.ExitNotices | server.js:105-111 | The loop visits each room other than the socket's own-id room exactly once, in some order, and sends that room's exit notice at the matching position, so there is exactly one notice per room and none addressed to the leaver; in a room where the socket is alone the notice reaches nobody. |
| App.SessionsReaction | src/App.tsx:77-85 | Connected exactly when a session exists; with no session the room id is cleared, otherwise kept. |
| App.StreamFlags | src/App.tsx:87-89 | After a stream change no capture is pending, and a stream is held exactly when one is set. |
| App.Client.constructor | src/App.tsx:13-20 | The page starts with no room, sessions or stream, not connected, and both stream flags false. |
| App.Client.OnGameCreated | src/App.tsx:25-53 | Once the socket connects the game exists, and no other page state changes. |
| App.Client.OnGameConnectionEvent | src/App.tsx:49 | The game's connection event sets the connection flag. |
| App.Client.OnRoomIdChanged | src/App.tsx:56-60 | The room id reaches the game registry once the game exists. |
| App.Client.OnConnectedChanged | src/App.tsx:73-75 | The connection flag reaches the game registry once the game exists. |
| App.Client.OnSessionsChanged | src/App.tsx:77-85 | The session-list effect sets the flag and room as SessionsReaction says. |
| App.Client.OnLocalStreamChanged | src/App.tsx:87-89 | The stream effect sets the flags as StreamFlags says. |
| App.Client.OnConnectionOrStreamChanged | src/App.tsx:67-71 | A stream held while not connected has all its tracks stopped and is dropped; otherwise the stream stays and, when one is held, none of its tracks changes. |
| App.Client.StopMediaTracks | src/App.tsx:62-65 | Every track of the held stream is stopped and the stream is cleared. |
| Peer.PeerConnection.AddIceCandidate | src/WebRTC.ts:182-185 | A candidate is recorded after the earlier ones; nothing else changes. |
| Peer.PeerConnection.Close | src/WebRTC.ts:203 | The connection is closed; its descriptions, candidates and senders are unchanged. |
| Peer.PeerConnection.AddTrack | src/WebRTC.ts:45 | The track is appended as the last sender; nothing else changes. |
| Peer.MediaTrack.Stop | src/App.tsx:63 | The track is stopped. |
| WebRTC.FindSession | src/WebRTC.ts:180 | Gives the first session with that player, or none exactly when there is none. |
| WebRTC.WithoutPeer | src/WebRTC.ts:215 | The filter leaves no session with that player, drops exactly that player's sessions and keeps the others. |
| WebRTC.AppendAddsSession | src/WebRTC.ts:105-107 | Appending adds one more session for that player even when one exists, and no other player's count changes. |
| WebRTC.WithoutPeerDistributes | src/WebRTC.ts:215 | The filter works piecewise, so the remaining sessions keep their order. |
| WebRTC.WithoutAbsentPeer | src/WebRTC.ts:215 | Filtering out a player without sessions changes nothing. |
| WebRTC.ConnectRequestReply | src/WebRTC.ts:67-87 | At capacity (two sessions) the reply is exactly a room-full notice and the room is kept. Below it, the last emit accepts with the room; a room is minted and created first exactly when none was set. |
| WebRTC.RouteCandidate | src/WebRTC.ts:178-196 | A remote candidate is dropped exactly when there is no session, applied exactly when the remote description is set, and held otherwise. |
| WebRTC.Enqueued | src/WebRTC.ts:188-191 | Holding a candidate appends it to that player's queue and leaves every other queue alone. |
| WebRTC.Queued | src/WebRTC.ts:139 | A player's held candidates: its queue, or none when it has no queue. |
| WebRTC.QueueKeepsArrivalOrder | src/WebRTC.ts:188-191 | Held candidates stay in arrival order, and no other player's queue changes. |
| WebRTC.MediaGate | src/WebRTC.ts:22-49 | The gate waits exactly while a capture is pending, and captures exactly when nothing is pending or held. |
| WebRTC.CaptureAtMostOnce | src/WebRTC.ts:23-41 | While the local stream does not change, any number of successive looks at the gate capture at most once, and not at all while a capture is pending or a stream is held. |
| WebRTC.OnConnectRequest | src/WebRTC.ts:67-87 | The emits and the new room are those of ConnectRequestReply; the session list is only read. |
| WebRTC.OnConnectResponse | src/WebRTC.ts:98-101 | The client joins the offered room and adopts its id. |
| WebRTC.OpenSession | src/WebRTC.ts:103-107 | A fresh open connection with no local or remote description is appended as a session for that player, without a duplicate check. |
| WebRTC.AddTracks | src/WebRTC.ts:43-47 | Every track is added in order, unless the connection is closed. |
| WebRTC.AcquireMedia | src/WebRTC.ts:22-41 | One look at the flags: wait, reuse the held stream's tracks, or start the one capture and set `creating`. |
| WebRTC.OnMediaCaptured | src/WebRTC.ts:41-48 | The captured stream is held and its tracks are added unless the connection is closed. |
| WebRTC.SendOffer | src/WebRTC.ts:109-116 | An open connection gets the offer as local description and the offer is sent; a closed one sends nothing. |
| WebRTC.FlushQueue | src/WebRTC.ts:139-145 | That player's held candidates are applied in arrival order and the player's queue is removed. |
| WebRTC.AcceptOffer | src/WebRTC.ts:131-148 | An open connection takes the offer as remote description, then the held candidates; a closed one changes nothing. |
| WebRTC.SendAnswer | src/WebRTC.ts:134-137 | The answer is sent in every case; it becomes the local description unless the connection is closed. |
| WebRTC.OnAnswer | src/WebRTC.ts:157-176 | The first session with that player takes the answer and drains that player's queue; a closed one or a missing one changes nothing. |
| WebRTC.OnIceCandidate | src/WebRTC.ts:178-196 | The candidate is dropped, applied to the first session, or queued, as RouteCandidate says. |
| WebRTC.OnLocalIceCandidate | src/WebRTC.ts:118-122 | Every discovered candidate is sent to the peer; the end-of-candidates event sends nothing. |
| WebRTC.CloseAll | src/WebRTC.ts:200-205 | Every session's connection ends closed, with its descriptions, candidates and senders unchanged. |
| WebRTC.OnToExitRoom | src/WebRTC.ts:198-218 | For this client: every connection closed and no sessions left. For another player: its first session closed and all its sessions filtered out. In both cases no connection's descriptions, candidates or senders change. |
| GamePlayer.Label | src/game/classes/Player.ts:27 | Names under five characters are shown verbatim; longer ones as their first four characters and "..". |
| GamePlayer.LabelIsStable | src/game/classes/Player.ts:27 | Labelling a label changes nothing, and a label equals its name exactly when the name was short or already cut. |
| GamePlayer.Velocity | src/game/classes/Player.ts:37-43 | The speed is ±100 with the sign of the input, or 0 for no input. |
| GamePlayer.StopFrame | src/game/classes/Player.ts:53-64 | Stop rests right, left, down and up on frames 0, 12, 18 and 6; with no animation the frame is kept. |
| GamePlayer.Player.constructor | src/game/classes/Player.ts:11-34 | A new sprite stands still at the given position with its label there, and its box is the player's width by the lower three quarters of its height. |
| GamePlayer.Player.Move | src/game/classes/Player.ts:36-48 | Velocity follows the input, the animation plays, and the label moves to the sprite. |
| GamePlayer.Player.Stop | src/game/classes/Player.ts:50-67 | The sprite halts on the resting frame of its animation, which stops. |
| GamePlayer.Player.Destroy | src/game/classes/Players.ts:84-85 | The sprite and its label are destroyed. |
| GamePlayers.FindSpot | src/game/classes/Players.ts:24 | Gives the first player with that identifier, or none exactly when none is on the map. |
| GamePlayers.TweenTo | src/game/classes/Players.ts:50-78 | A tween takes 10 ms per pixel (zero exactly when there is no distance) and plays right or down when the coordinate grows, left or up otherwise. |
| GamePlayers.ChooseTween | src/game/classes/Players.ts:29-37 | A known player gets no tween exactly when it is already at the broadcast position; otherwise an x tween to the new x, or a y tween to the new y. |
| GamePlayers.TweenLandsOnBroadcast | src/game/classes/Players.ts:29-63 | A chosen tween, with the y tween it chains, lands on the broadcast position, except exactly when both coordinates change and the target y is 0. |
| GamePlayers.Absorb | src/game/classes/Players.ts:20-44 | An unknown player is appended at its broadcast position with no tween; a known one stays where it is, and at most one tween for it is appended. |
| GamePlayers.Plan | src/game/classes/Players.ts:20-45 | Absorbing a broadcast only appends players; the earlier ones stay first, in order. |
| GamePlayers.AbsorbAddsOnce | src/game/classes/Players.ts:24-44 | One entry leaves the map alone or appends its player, only when unknown, at its broadcast position. |
| GamePlayers.PlanCoversBroadcast | src/game/classes/Players.ts:20-45 | After the `map`, every broadcast identifier is on the map. |
| GamePlayers.PlanKeepsDistinct | src/game/classes/Players.ts:24-44 | The `map` never creates an identifier twice. |
| GamePlayers.PlanCreatesAtBroadcast | src/game/classes/Players.ts:39-44 | Each new player is created at the position of a broadcast entry. |
| GamePlayers.KeepPresent | src/game/classes/Players.ts:81-82 | The filter never lengthens the map; what it keeps is stated by KeepPresentFilters. |
| GamePlayers.KeepPresentFilters | src/game/classes/Players.ts:80-89 | The filter keeps exactly the players the broadcast lists, and keeps identifiers distinct. |
| GamePlayers.KeepPresentAppends | src/game/classes/Players.ts:80-89 | The filter works piecewise, so survivors keep their order. |
| GamePlayers.ReconcileMatchesBroadcast | src/game/classes/Players.ts:19-48 | After reconciliation the map shows exactly the broadcast identifiers, each once. |
| GamePlayers.ReconcileKeepsOrder | src/game/classes/Players.ts:19-48 | Survivors keep their old order, and newcomers follow in broadcast order. |
| GamePlayers.NewcomersAreBroadcast | src/game/classes/Players.ts:39-44 | Every newcomer is listed in the broadcast. |
| GamePlayers.KeepBroadcastIds | src/game/classes/Players.ts:80-89 | Filtering a map that shows every broadcast player leaves exactly the broadcast identifiers. |
| GamePlayers.KeepAllPresent | src/game/classes/Players.ts:80-89 | Filtering a map of broadcast players only changes nothing. |
| GamePlayers.KeepPlayers | src/game/classes/Players.ts:81-88 | The filter never lengthens the player list and keeps only players it already held that the broadcast lists. |
| GamePlayers.SpotsOfKept | src/game/classes/Players.ts:81-88 | Filtering the player objects leaves exactly the filtered positions. |
| GamePlayers.Players.constructor | src/game/classes/Players.ts:9-13 | No remote players and no tweens at the start. |
| GamePlayers.Players.OnPlayersData | src/game/classes/Players.ts:14-16 | The local player is left out; afterwards the map shows exactly the other broadcast players, each once. Dropped players are destroyed and kept ones are untouched. |
| GamePlayers.Players.UpdatePlayersPosition | src/game/classes/Players.ts:19-48 | The positions and tweens are those of Plan followed by the filter; dropped players are destroyed and kept ones are untouched. |
| GamePlayers.Players.ApplyUpdates | src/game/classes/Players.ts:20-45 | The loop over the broadcast does what Plan says, creating only fresh players. |
| GamePlayers.Players.AbsorbEntry | src/game/classes/Players.ts:21-44 | One entry is absorbed as Absorb says. |
| GamePlayers.Players.RemoveDisconnectedPlayers | src/game/classes/Players.ts:80-89 | The map keeps exactly the broadcast players in order; every dropped one is destroyed and every kept one is untouched. |
| GamePlayers.Players.FilterConnected | src/game/classes/Players.ts:81-88 | The loop keeps the listed players, destroys the others and leaves the kept ones untouched. |
| GamePlayers.Players.Listed | src/game/classes/Players.ts:57 | Some player on the map carries that identifier. |
| GamePlayers.Players.OnTweenStart | src/game/classes/Players.ts:55-72 | When a tween starts, the sprite plays right or down when its coordinate is below the target, left or up otherwise. |
| GamePlayers.Players.OnXTweenComplete | src/game/classes/Players.ts:56-63 | The sprite lands on the x target; a still-listed player stops and chains a y tween exactly when the target y is truthy. |
| GamePlayers.Players.OnYTweenComplete | src/game/classes/Players.ts:73-76 | The sprite lands on the y target; a still-listed player stops. |
| OfficeScene.SpriteHeight | src/Constants.ts:8-11 | A drawn sprite is 48 px high. |
| OfficeScene.StartY | src/game/scenes/Office.ts:23 | The local player starts at y = 235, its sprite ending 5 px above the bottom of the map. |
| OfficeScene.AnimationFrames | src/game/scenes/Office.ts:36-41 | Each animation's frame range is non-empty. |
| OfficeScene.StopRestsOnFirstFrame | src/game/scenes/Office.ts:36-41 | Stop rests each animation on the first frame of its range, and no two ranges share a frame. |
| OfficeScene.Direction | src/game/scenes/Office.ts:85-98 | No direction exactly when no key is held; otherwise a unit step on one axis, animated in the direction of travel. |
| OfficeScene.HighestKeyWins | src/game/scenes/Office.ts:85-98 | Left beats right beats up beats down, whatever else is held. |
| OfficeScene.RecentOrStale | src/game/scenes/Office.ts:108-116 | A move is never both recent (< 1 s) and stale (> 1 s); at exactly 1 s, or with no move, it is neither. |
| OfficeScene.Recent | src/game/scenes/Office.ts:66 | The last move happened less than 1000 ms ago. |
| OfficeScene.Stale | src/game/scenes/Office.ts:109 | The last move happened more than 1000 ms ago. |
| OfficeScene.Near | src/game/scenes/Office.ts:60-64 | Within reach: less than 32 px apart across and less than 38.4 px apart down. |
| OfficeScene.FirstNear | src/game/scenes/Office.ts:60-77 | Gives the first player within reach, or none exactly when nobody is within reach. |
| OfficeScene.ProximityEffects | src/game/scenes/Office.ts:60-77 | The connect effects (game event, position, request to the first player touched) occur exactly when someone is touched, the client is idle and it moved within 1 s. |
| OfficeScene.ExitEffects | src/game/scenes/Office.ts:78-83 | The leave request and the game event occur exactly when nobody is touched, the client is in a call and a room, and it moved within 1 s. |
| OfficeScene.PositionEffects | src/game/scenes/Office.ts:108-116 | The position report occurs exactly when the last move is stale. |
| OfficeScene.FrameEffects | src/game/scenes/Office.ts:57-106 | A frame emits at most four effects, and nothing while walking in a state where touching matches being connected. |
| OfficeScene.NextLastMoved | src/game/scenes/Office.ts:100-116 | Walking stamps the time; standing clears the stamp once the move is stale and keeps it otherwise. |
| OfficeScene.FrameIsConsistent | src/game/scenes/Office.ts:57-106 | A frame never both connects and leaves; a connect goes to a player within reach; the game event is the opposite of the current flag; a leave carries the set room id. |
| OfficeScene.FrameTriggers | src/game/scenes/Office.ts:60-83 | A connect goes to the first player within reach, exactly when the client is idle and moved within 1 s. A leave is sent exactly when nobody is within reach, the client is in a call and a room, and it moved within 1 s. |
| OfficeScene.OnePositionPerFrame | src/game/scenes/Office.ts:65-116 | A frame reports the local position at most once, and the report is the sprite's position. |
| OfficeScene.Office.constructor | src/game/scenes/Office.ts:23-54 | The local player starts at (0, 235) with its label, no remote players, and one register event with that position. |
| OfficeScene.Office.Update | src/game/scenes/Office.ts:57-106 | One frame emits FrameEffects for the positions before it, updates the last-move stamp as NextLastMoved says, and walks or stops the sprite as Direction says. |
| OfficeScene.Office.Approach | src/game/scenes/Office.ts:60-83 | The proximity and leave effects of the frame, in order. |
| OfficeScene.Office.Walk | src/game/scenes/Office.ts:85-105 | Walk in the key direction and stamp the time, or stop and report a stale position. |
| OfficeScene.Office.CheckProximity | src/game/scenes/Office.ts:60-77 | The `some` stops at the first player within reach and sends the connect effects for it when the client is idle and moved within 1 s. |
| OfficeScene.Office.EmitPlayerPosition | src/game/scenes/Office.ts:108-116 | A stale move is reported once with the sprite's position and the stamp is cleared; otherwise nothing happens. |

## Left out

- The HTTP server, the Next.js handler and the socket.io transport are not modelled. Emits are recorded with their recipients and delivered in order.
- The list of STUN servers and everything inside an RTCPeerConnection are left out: SDP, ICE gathering and media transport. Descriptions and candidates are opaque strings, and a connection is reduced to its closed flag, its descriptions and the calls made on it.
- The rejection of `addIceCandidate` is not modelled, because the source only logs it. The rejection of `setLocalDescription` is not modelled either: the source does not handle it, and emits the offer or answer whatever its outcome.
- The outcome of `getUserMedia`, the `ontrack` handler and every DOM video element are left out. A successful capture is the call `OnMediaCaptured`. A rejected one is simply no call, so `creating` stays set.
- The 100 ms polling of the media gate and the interleaving of asynchronous continuations are not modelled. Each look at the flags is one `AcquireMedia` call, and `CapturesOver` states what successive looks do.
- The random room id is a parameter (`minted`), because it comes from `Math.random`.
- Toasts (`roomFull`), rendering, the landing page, the username form and the preloader scene are left out, because they only display. The `username` and `game` state is reduced to `hasGame`.
- Phaser is not modelled: physics, colliders against the tile map, camera, tile map, world bounds, frame rate and the tween engine itself. A sprite moves only through the modelled assignments. A tween is recorded when started, and its completion is a method the environment calls.
- A tween's `onStart` is the method `OnTweenStart`, called by the environment; it judges the direction from the sprite's position when it starts, as the source does. The `anim` recorded in a `Tween` is the direction when the tween is added. The frames the tween engine advances through while playing are not modelled.
- `new Date()` is a parameter `now`, an integer number of milliseconds. The registry values `isWebRTCConnected` and `roomId` that `update` reads are parameters.
- Coordinates are real numbers, so NaN and floating-point rounding are not modelled.
- Label lengths count characters, not UTF-16 code units.
- Animation keys are a datatype of the four keys the scene creates, not strings.
- When the transport drops a disconnected socket from its rooms, this is modelled as `LeaveAll`.
- Server.ExitNotices: `socket.rooms` is a set whose iteration follows join order, which the model does not record. The loop therefore visits the rooms in an arbitrary order, and the contract pins each notice to its room through the returned order rather than to join order.
- `updatePlayersPosition` is split into `ApplyUpdates` (its `map`) and `RemoveDisconnectedPlayers`, whose `filter` callback loop is `FilterConnected`. `update` is split into `Approach` and `Walk`. This splitting changes no behaviour.
