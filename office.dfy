/** The office scene: the local player's start and registration, and the
    per-frame update that walks it with the arrow keys, asks to talk to the
    first player it touches, leaves the room when it walks away, and reports
    its position once it has stood still for a second. */
module OfficeScene {
  import opened Protocol
  import opened GamePlayer
  import opened GamePlayers
  import Constants

  /** What the scene does outside itself: the `isWebRTCConnected` game event
      handed to the page, or an event emitted on the socket. */
  datatype Effect = GameEvent(connected: bool) | Emit(event: ClientEvent)

  /** Height of the drawn sprite. */
  function SpriteHeight(): (h: real)
    ensures h == 48.0
  {
    Constants.PlayerHeight * Constants.PlayerScale
  }

  /** Where the local player starts: the left edge, its sprite ending 5 px
      above the bottom of the map. */
  function StartY(): (y: real)
    ensures y == 235.0
    ensures 0.0 <= y && y + SpriteHeight() + 5.0 == Constants.GameHeight as real
  {
    Constants.GameHeight as real - SpriteHeight() - 5.0
  }

  /** The first and last frame of each animation created by the scene. */
  function AnimationFrames(key: Animation): (r: (nat, nat))
    ensures r.0 <= r.1
  {
    match key
    case Right => (0, 5)
    case Up => (6, 11)
    case Left => (12, 17)
    case Down => (18, 22)
  }

  /** `stop` rests an animation on the first frame of its range, and the
      ranges of two animations never share a frame. */
  lemma StopRestsOnFirstFrame(key: Animation, other: Animation, frame: nat)
    ensures StopFrame(Some(key), frame) == AnimationFrames(key).0
    ensures key != other ==> AnimationFrames(key).1 < AnimationFrames(other).0 ||
                             AnimationFrames(other).1 < AnimationFrames(key).0
  {
  }

  /** The arrow keys held down in this frame. */
  datatype Keys = Keys(left: bool, right: bool, up: bool, down: bool)

  /** A walking direction: a unit step on one axis and its animation. */
  datatype Heading = Heading(dx: int, dy: int, anim: Animation)

  /** The direction the keys ask for; left beats right beats up beats down. */
  function Direction(k: Keys): (r: Option<Heading>)
    ensures r.None? <==> !k.left && !k.right && !k.up && !k.down
    ensures r.Some? ==> (r.value.dx == 0) != (r.value.dy == 0)
    ensures r.Some? ==> -1 <= r.value.dx <= 1 && -1 <= r.value.dy <= 1
    ensures r.Some? ==> (r.value.anim == Left <==> r.value.dx < 0) && (r.value.anim == Right <==> r.value.dx > 0)
    ensures r.Some? ==> (r.value.anim == Up <==> r.value.dy < 0) && (r.value.anim == Down <==> r.value.dy > 0)
    ensures k.left ==> r == Some(Heading(-1, 0, Left))
    ensures !k.left && k.right ==> r == Some(Heading(1, 0, Right))
    ensures !k.left && !k.right && k.up ==> r == Some(Heading(0, -1, Up))
    ensures !k.left && !k.right && !k.up && k.down ==> r == Some(Heading(0, 1, Down))
  {
    if k.left then Some(Heading(-1, 0, Left))
    else if k.right then Some(Heading(1, 0, Right))
    else if k.up then Some(Heading(0, -1, Up))
    else if k.down then Some(Heading(0, 1, Down))
    else None
  }

  /** Only the highest-priority key held matters: keys of lower priority
      than it may be held or not without changing the direction. */
  lemma HighestKeyWins(k: Keys, k': Keys)
    ensures k.left && k'.left ==> Direction(k) == Direction(k')
    ensures !k.left && !k'.left && k.right && k'.right ==> Direction(k) == Direction(k')
    ensures !k.left && !k'.left && !k.right && !k'.right && k.up && k'.up ==> Direction(k) == Direction(k')
    ensures Direction(k).Some? && Direction(k).value.anim == Down ==> !k.left && !k.right && !k.up
  {
  }

  /** The last keyboard move happened less than a second ago. */
  predicate Recent(lastMoved: Option<int>, now: int) {
    lastMoved.Some? && now - lastMoved.value < 1000
  }

  /** The last keyboard move happened more than a second ago. */
  predicate Stale(lastMoved: Option<int>, now: int) {
    lastMoved.Some? && now - lastMoved.value > 1000
  }

  /** A move is never both recent and stale, and exactly one second after
      it, or with no move recorded, it is neither. */
  lemma RecentOrStale(lastMoved: Option<int>, now: int)
    ensures !(Recent(lastMoved, now) && Stale(lastMoved, now))
    ensures lastMoved.None? || now - lastMoved.value == 1000 ==> !Recent(lastMoved, now) && !Stale(lastMoved, now)
  {
  }

  /** The local sprite at (x, y) touches the other player: closer than two
      sprite widths across and 1.2 sprite heights down. */
  predicate Near(x: real, y: real, s: Spot)
    ensures Near(x, y, s) <==> -32.0 < x - s.x < 32.0 && -38.4 < y - s.y < 38.4
  {
    Abs(x - s.x) < 2.0 * Constants.PlayerWidth && Abs(y - s.y) < 1.2 * Constants.PlayerHeight
  }

  /** The first player the local sprite touches, as the `some` finds it. */
  function FirstNear(x: real, y: real, others: seq<Spot>): (r: Option<nat>)
    ensures r.Some? ==> r.value < |others| && Near(x, y, others[r.value])
    ensures r.Some? ==> forall j :: 0 <= j < r.value ==> !Near(x, y, others[j])
    ensures r.None? <==> forall j :: 0 <= j < |others| ==> !Near(x, y, others[j])
  {
    if others == [] then None
    else if Near(x, y, others[0]) then Some(0)
    else match FirstNear(x, y, others[1..])
      case None => None
      case Some(k) => Some(k + 1)
  }

  /** What the `some` over the other players emits: for the first player
      touched, if the client is neither connected nor in a room and the
      local player moved within the last second, the connection event, its
      own position and a connect request to that player. */
  function ProximityEffects(x: real, y: real, others: seq<Spot>, lastMoved: Option<int>, now: int,
                            connected: bool, roomId: Option<RoomId>): (r: seq<Effect>)
    ensures r != [] <==> FirstNear(x, y, others).Some? && !connected && !IsSet(roomId) && Recent(lastMoved, now)
    ensures r != [] ==> r == [GameEvent(true), Emit(Move(x, y)),
                              Emit(ConnectToPlayer(others[FirstNear(x, y, others).value].id))]
  {
    match FirstNear(x, y, others)
    case Some(k) =>
      if !connected && !IsSet(roomId) && Recent(lastMoved, now)
      then [GameEvent(true), Emit(Move(x, y)), Emit(ConnectToPlayer(others[k].id))]
      else []
    case None => []
  }

  /** Leaving: nobody touched, connected, in a room, and moved within the
      last second. */
  function ExitEffects(touching: bool, lastMoved: Option<int>, now: int, connected: bool, roomId: Option<RoomId>): (r: seq<Effect>)
    ensures r != [] <==> !touching && connected && IsSet(roomId) && Recent(lastMoved, now)
    ensures r != [] ==> r == [Emit(ExitRoom(roomId.value)), GameEvent(false)]
  {
    if !touching && connected && IsSet(roomId) && Recent(lastMoved, now)
    then [Emit(ExitRoom(roomId.value)), GameEvent(false)]
    else []
  }

  /** `emitPlayerPosition`: the position, once the last move is stale. */
  function PositionEffects(x: real, y: real, lastMoved: Option<int>, now: int): (r: seq<Effect>)
    ensures r != [] <==> Stale(lastMoved, now)
    ensures r != [] ==> r == [Emit(Move(x, y))]
  {
    if Stale(lastMoved, now) then [Emit(Move(x, y))] else []
  }

  /** Everything one `update` emits, in order. */
  function FrameEffects(x: real, y: real, others: seq<Spot>, lastMoved: Option<int>, now: int,
                        connected: bool, roomId: Option<RoomId>, keys: Keys): (r: seq<Effect>)
    ensures |r| <= 4
    ensures Direction(keys).Some? && (FirstNear(x, y, others).Some? == connected) ==> r == []
  {
    ProximityEffects(x, y, others, lastMoved, now, connected, roomId) +
    ExitEffects(FirstNear(x, y, others).Some?, lastMoved, now, connected, roomId) +
    (if Direction(keys).None? then PositionEffects(x, y, lastMoved, now) else [])
  }

  /** `lastMoved` after one `update`: now when walking, cleared once the
      position was reported, otherwise kept. */
  function NextLastMoved(lastMoved: Option<int>, now: int, keys: Keys): (r: Option<int>)
    ensures Direction(keys).Some? ==> r == Some(now)
    ensures Direction(keys).None? && Stale(lastMoved, now) ==> r == None
    ensures Direction(keys).None? && !Stale(lastMoved, now) ==> r == lastMoved
  {
    if Direction(keys).Some? then Some(now)
    else if Stale(lastMoved, now) then None
    else lastMoved
  }

  lemma FrameInOrder(log: seq<Effect>, x: real, y: real, others: seq<Spot>, lastMoved: Option<int>, now: int,
                     connected: bool, roomId: Option<RoomId>, keys: Keys)
    ensures log + FrameEffects(x, y, others, lastMoved, now, connected, roomId, keys) ==
            ((log + ProximityEffects(x, y, others, lastMoved, now, connected, roomId))
                 + ExitEffects(FirstNear(x, y, others).Some?, lastMoved, now, connected, roomId))
                 + (if Direction(keys).None? then PositionEffects(x, y, lastMoved, now) else [])
  {
    ConcatAssoc(log, ProximityEffects(x, y, others, lastMoved, now, connected, roomId),
                ExitEffects(FirstNear(x, y, others).Some?, lastMoved, now, connected, roomId));
    ConcatAssoc(log, ProximityEffects(x, y, others, lastMoved, now, connected, roomId) +
                     ExitEffects(FirstNear(x, y, others).Some?, lastMoved, now, connected, roomId),
                if Direction(keys).None? then PositionEffects(x, y, lastMoved, now) else []);
  }

  predicate IsConnect(e: Effect) {
    e.Emit? && e.event.ConnectToPlayer?
  }

  predicate IsExit(e: Effect) {
    e.Emit? && e.event.ExitRoom?
  }

  predicate IsMove(e: Effect) {
    e.Emit? && e.event.Move?
  }

  /** One frame never both asks to connect and asks to leave; a connect
      request goes only to a player the local sprite touches, and the flag
      event announces the opposite of the current connection state. */
  lemma FrameIsConsistent(x: real, y: real, others: seq<Spot>, lastMoved: Option<int>, now: int,
                          connected: bool, roomId: Option<RoomId>, keys: Keys)
    ensures var r := FrameEffects(x, y, others, lastMoved, now, connected, roomId, keys);
      !((exists i :: 0 <= i < |r| && IsConnect(r[i])) && (exists i :: 0 <= i < |r| && IsExit(r[i])))
    ensures var r := FrameEffects(x, y, others, lastMoved, now, connected, roomId, keys);
      forall i :: 0 <= i < |r| && IsConnect(r[i]) ==>
        exists j :: 0 <= j < |others| && others[j].id == r[i].event.playerId && Near(x, y, others[j])
    ensures var r := FrameEffects(x, y, others, lastMoved, now, connected, roomId, keys);
      forall i :: 0 <= i < |r| && r[i].GameEvent? ==> r[i].connected == !connected
    ensures var r := FrameEffects(x, y, others, lastMoved, now, connected, roomId, keys);
      forall i :: 0 <= i < |r| && IsExit(r[i]) ==> roomId == Some(r[i].event.roomId) && r[i].event.roomId != ""
  {
    var p := ProximityEffects(x, y, others, lastMoved, now, connected, roomId);
    var e := ExitEffects(FirstNear(x, y, others).Some?, lastMoved, now, connected, roomId);
    var m := if Direction(keys).None? then PositionEffects(x, y, lastMoved, now) else [];
    var r := p + e + m;
    assert forall i :: 0 <= i < |m| ==> IsMove(m[i]);
    if e != [] {
      assert p == [];
    }
    forall i | 0 <= i < |r| && IsConnect(r[i])
      ensures exists j :: 0 <= j < |others| && others[j].id == r[i].event.playerId && Near(x, y, others[j])
    {
      assert i < |p|;
      var k := FirstNear(x, y, others).value;
      assert r[i] == Emit(ConnectToPlayer(others[k].id));
    }
  }

  /** When a frame asks to connect, and to whom, and when it asks to leave:
      a connect request goes to the first player touched, exactly when the
      client is idle and moved within the last second; a leave request
      exactly when nobody is touched, the client is connected and in a
      room, and it moved within the last second. */
  lemma FrameTriggers(x: real, y: real, others: seq<Spot>, lastMoved: Option<int>, now: int,
                      connected: bool, roomId: Option<RoomId>, keys: Keys)
    ensures var r := FrameEffects(x, y, others, lastMoved, now, connected, roomId, keys);
      forall i :: 0 <= i < |r| && IsConnect(r[i]) ==>
        FirstNear(x, y, others).Some? && r[i].event.playerId == others[FirstNear(x, y, others).value].id
    ensures var r := FrameEffects(x, y, others, lastMoved, now, connected, roomId, keys);
      (exists i :: 0 <= i < |r| && IsConnect(r[i])) <==>
        FirstNear(x, y, others).Some? && !connected && !IsSet(roomId) && Recent(lastMoved, now)
    ensures var r := FrameEffects(x, y, others, lastMoved, now, connected, roomId, keys);
      (exists i :: 0 <= i < |r| && IsExit(r[i])) <==>
        FirstNear(x, y, others).None? && connected && IsSet(roomId) && Recent(lastMoved, now)
  {
    var p := ProximityEffects(x, y, others, lastMoved, now, connected, roomId);
    var e := ExitEffects(FirstNear(x, y, others).Some?, lastMoved, now, connected, roomId);
    var m := if Direction(keys).None? then PositionEffects(x, y, lastMoved, now) else [];
    var r := p + e + m;
    assert forall i :: 0 <= i < |m| ==> IsMove(m[i]);
    assert forall i :: 0 <= i < |e| ==> IsExit(e[i]) || e[i].GameEvent?;
    if p != [] {
      assert IsConnect(r[2]);
    }
    if e != [] {
      assert IsExit(r[|p|]);
    }
    forall i | 0 <= i < |r| && IsConnect(r[i])
      ensures FirstNear(x, y, others).Some? && r[i].event.playerId == others[FirstNear(x, y, others).value].id
    {
      assert i < |p|;
    }
    forall i | 0 <= i < |r| && IsExit(r[i])
      ensures |p| <= i < |p| + |e|
    {
    }
  }

  /** One frame reports the local position at most once: the report that
      comes with a connect request needs a recent move, the idle report a
      stale one. */
  lemma {:induction false} OnePositionPerFrame(x: real, y: real, others: seq<Spot>, lastMoved: Option<int>, now: int,
                                               connected: bool, roomId: Option<RoomId>, keys: Keys)
    ensures var r := FrameEffects(x, y, others, lastMoved, now, connected, roomId, keys);
      forall i, j :: 0 <= i < j < |r| ==> !(IsMove(r[i]) && IsMove(r[j]))
    ensures var r := FrameEffects(x, y, others, lastMoved, now, connected, roomId, keys);
      forall i :: 0 <= i < |r| && IsMove(r[i]) ==> r[i].event == Move(x, y)
  {
    var p := ProximityEffects(x, y, others, lastMoved, now, connected, roomId);
    var e := ExitEffects(FirstNear(x, y, others).Some?, lastMoved, now, connected, roomId);
    var m := if Direction(keys).None? then PositionEffects(x, y, lastMoved, now) else [];
    var r := p + e + m;
    RecentOrStale(lastMoved, now);
    assert forall i :: 0 <= i < |e| ==> !IsMove(e[i]);
    assert p != [] ==> Recent(lastMoved, now);
    assert m != [] ==> Stale(lastMoved, now);
    assert forall i :: 0 <= i < |p| && IsMove(p[i]) ==> i == 1;
  }

  class Office {
    /** The local player and the others on the map. */
    const currentPlayer: Player
    const onlinePlayers: Players
    /** Every effect of the scene, in order. */
    var effects: seq<Effect>

    /** `create`: place the local player and register it with the server. */
    constructor (selfId: SocketId, name: string)
      ensures fresh(currentPlayer) && fresh(onlinePlayers)
      ensures currentPlayer.id == selfId && currentPlayer.x == 0.0 && currentPlayer.y == StartY()
      ensures currentPlayer.nameLabel == Label(name) && currentPlayer.lastMoved == None
      ensures onlinePlayers.selfId == selfId && onlinePlayers.players == [] && onlinePlayers.Valid()
      ensures effects == [Emit(Register(name, 0.0, 235.0))]
    {
      currentPlayer := new Player(selfId, name, 0.0, StartY());
      onlinePlayers := new Players(selfId);
      effects := [Emit(Register(name, 0.0, StartY()))];
    }

    /** `update`, given the keys held, the clock, and the registry's
        connection flag and room. */
    method Update(keys: Keys, now: int, connected: bool, roomId: Option<RoomId>)
      modifies this`effects, currentPlayer`vx, currentPlayer`vy, currentPlayer`anim, currentPlayer`playing,
               currentPlayer`labelX, currentPlayer`labelY, currentPlayer`frame, currentPlayer`lastMoved
      ensures effects == old(effects) + FrameEffects(currentPlayer.x, currentPlayer.y, old(Spots(onlinePlayers.players)),
                                                     old(currentPlayer.lastMoved), now, connected, roomId, keys)
      ensures currentPlayer.lastMoved == NextLastMoved(old(currentPlayer.lastMoved), now, keys)
      ensures Direction(keys).Some? ==>
                currentPlayer.vx == Velocity(Direction(keys).value.dx) && currentPlayer.vy == Velocity(Direction(keys).value.dy) &&
                currentPlayer.anim == Some(Direction(keys).value.anim) && currentPlayer.playing &&
                currentPlayer.frame == old(currentPlayer.frame) &&
                currentPlayer.labelX == currentPlayer.x && currentPlayer.labelY == currentPlayer.y
      ensures Direction(keys).None? ==>
                currentPlayer.vx == 0 && currentPlayer.vy == 0 && !currentPlayer.playing &&
                currentPlayer.frame == StopFrame(old(currentPlayer.anim), old(currentPlayer.frame)) &&
                currentPlayer.anim == old(currentPlayer.anim) &&
                currentPlayer.labelX == old(currentPlayer.labelX) && currentPlayer.labelY == old(currentPlayer.labelY)
    {
      ghost var others := Spots(onlinePlayers.players);
      ghost var x, y, lastMoved := currentPlayer.x, currentPlayer.y, currentPlayer.lastMoved;
      FrameInOrder(effects, x, y, others, lastMoved, now, connected, roomId, keys);
      Approach(now, connected, roomId);
      Walk(keys, now);
    }

    /** The first half of `update`: ask to connect to the first player
        touched, or leave the room when nobody is touched. */
    method Approach(now: int, connected: bool, roomId: Option<RoomId>)
      modifies this`effects
      ensures effects == old(effects) +
                ProximityEffects(currentPlayer.x, currentPlayer.y, old(Spots(onlinePlayers.players)),
                                 currentPlayer.lastMoved, now, connected, roomId) +
                ExitEffects(FirstNear(currentPlayer.x, currentPlayer.y, old(Spots(onlinePlayers.players))).Some?,
                            currentPlayer.lastMoved, now, connected, roomId)
    {
      var touching := CheckProximity(now, connected, roomId);
      if !touching && connected && IsSet(roomId) && Recent(currentPlayer.lastMoved, now) {
        effects := effects + [Emit(ExitRoom(roomId.value)), GameEvent(false)];
      }
    }

    /** The second half of `update`: walk in the direction of the keys, or
        stop and report the position. */
    method Walk(keys: Keys, now: int)
      modifies this`effects, currentPlayer`vx, currentPlayer`vy, currentPlayer`anim, currentPlayer`playing,
               currentPlayer`labelX, currentPlayer`labelY, currentPlayer`frame, currentPlayer`lastMoved
      ensures effects == old(effects) +
                if Direction(keys).None? then PositionEffects(currentPlayer.x, currentPlayer.y, old(currentPlayer.lastMoved), now) else []
      ensures currentPlayer.lastMoved == NextLastMoved(old(currentPlayer.lastMoved), now, keys)
      ensures Direction(keys).Some? ==>
                currentPlayer.vx == Velocity(Direction(keys).value.dx) && currentPlayer.vy == Velocity(Direction(keys).value.dy) &&
                currentPlayer.anim == Some(Direction(keys).value.anim) && currentPlayer.playing &&
                currentPlayer.frame == old(currentPlayer.frame) &&
                currentPlayer.labelX == currentPlayer.x && currentPlayer.labelY == currentPlayer.y
      ensures Direction(keys).None? ==>
                currentPlayer.vx == 0 && currentPlayer.vy == 0 && !currentPlayer.playing &&
                currentPlayer.frame == StopFrame(old(currentPlayer.anim), old(currentPlayer.frame)) &&
                currentPlayer.anim == old(currentPlayer.anim) &&
                currentPlayer.labelX == old(currentPlayer.labelX) && currentPlayer.labelY == old(currentPlayer.labelY)
    {
      var direction := Direction(keys);
      if direction.Some? {
        currentPlayer.Move(direction.value.dx, direction.value.dy, direction.value.anim);
        currentPlayer.lastMoved := Some(now);
      } else {
        currentPlayer.Stop();
        EmitPlayerPosition(now);
      }
    }

    /** The `some` over the other players: whether the local sprite touches
        one, with the connect request to the first one touched. */
    method CheckProximity(now: int, connected: bool, roomId: Option<RoomId>) returns (touching: bool)
      modifies this`effects
      ensures touching <==> FirstNear(currentPlayer.x, currentPlayer.y, old(Spots(onlinePlayers.players))).Some?
      ensures effects == old(effects) +
                ProximityEffects(currentPlayer.x, currentPlayer.y, old(Spots(onlinePlayers.players)),
                                 currentPlayer.lastMoved, now, connected, roomId)
    {
      var ps := onlinePlayers.players;
      var x, y := currentPlayer.x, currentPlayer.y;
      ghost var others := Spots(ps);
      touching := false;
      var i := 0;
      while i < |ps| && !touching
        invariant 0 <= i <= |ps|
        invariant forall j :: 0 <= j < i && (!touching || j < i - 1) ==> !Near(x, y, others[j])
        invariant touching ==> i > 0 && Near(x, y, others[i - 1])
        invariant effects == old(effects) +
                    if touching && !connected && !IsSet(roomId) && Recent(currentPlayer.lastMoved, now)
                    then [GameEvent(true), Emit(Move(x, y)), Emit(ConnectToPlayer(others[i - 1].id))]
                    else []
      {
        var p := ps[i];
        assert others[i] == Spot(p.id, p.x, p.y);
        touching := Abs(x - p.x) < 2.0 * Constants.PlayerWidth && Abs(y - p.y) < 1.2 * Constants.PlayerHeight;
        if touching && !connected && !IsSet(roomId) && Recent(currentPlayer.lastMoved, now) {
          effects := effects + [GameEvent(true), Emit(Move(x, y)), Emit(ConnectToPlayer(p.id))];
        }
        i := i + 1;
      }
      if touching {
        assert FirstNear(x, y, others) == Some(i - 1);
      }
    }

    /** `emitPlayerPosition`. */
    method EmitPlayerPosition(now: int)
      modifies this`effects, currentPlayer`lastMoved
      ensures effects == old(effects) + PositionEffects(currentPlayer.x, currentPlayer.y, old(currentPlayer.lastMoved), now)
      ensures currentPlayer.lastMoved == if Stale(old(currentPlayer.lastMoved), now) then None else old(currentPlayer.lastMoved)
      ensures forall later :: !Stale(currentPlayer.lastMoved, later) || currentPlayer.lastMoved == old(currentPlayer.lastMoved)
    {
      var lastMoved := currentPlayer.lastMoved;
      if lastMoved.Some? && now - lastMoved.value > 1000 {
        effects := effects + [Emit(Move(currentPlayer.x, currentPlayer.y))];
        currentPlayer.lastMoved := None;
      }
    }
  }
}
