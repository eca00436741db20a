/** The server's presence registry and signalling relay.  Deliveries are
    recorded with the set of sockets they reach, resolved against room
    membership at the moment of the emit, as socket.io resolves them. */
module Server {
  import opened Protocol

  /** One emit: who receives it and what it carries. */
  datatype Delivery = Delivery(recipients: set<SocketId>, event: ServerEvent)

  /** `move` from a socket that never registered throws a TypeError
      before touching anything. */
  datatype MoveOutcome = Moved | UnregisteredSender

  type Rooms = map<string, set<SocketId>>

  /** Members of the transport room `name` (no room: nobody). */
  function Members(rooms: Rooms, name: string): (r: set<SocketId>)
    ensures forall s :: s in r <==> name in rooms && s in rooms[name]
  {
    if name in rooms then rooms[name] else {}
  }

  /** `socket.join(name)`. */
  function Join(rooms: Rooms, name: string, s: SocketId): (r: Rooms)
    ensures Members(r, name) == Members(rooms, name) + {s}
    ensures forall n :: n != name ==> Members(r, n) == Members(rooms, n)
  {
    rooms[name := Members(rooms, name) + {s}]
  }

  /** `socket.leave(name)`; the transport forgets a room once it is empty. */
  function Leave(rooms: Rooms, name: string, s: SocketId): (r: Rooms)
    ensures Members(r, name) == Members(rooms, name) - {s}
    ensures forall n :: n != name ==> Members(r, n) == Members(rooms, n)
    ensures forall n :: n in r ==> r[n] != {} || (n in rooms && rooms[n] == {})
  {
    var m := Members(rooms, name) - {s};
    if m == {} then rooms - {name} else rooms[name := m]
  }

  /** What the transport does once a socket has gone: it leaves every room. */
  function LeaveAll(rooms: Rooms, s: SocketId): (r: Rooms)
    ensures forall n :: Members(r, n) == Members(rooms, n) - {s}
  {
    map n | n in rooms && rooms[n] - {s} != {} :: rooms[n] - {s}
  }

  /** The rooms `disconnecting` sends an exit notice to: every room `s`
      belongs to other than its own-id room, including rooms where it is
      alone (whose notice then reaches nobody). */
  function NoticeRooms(rooms: Rooms, s: SocketId): (r: set<string>)
    ensures forall n :: n in r <==> s in Members(rooms, n) && n != s
  {
    set n | n in rooms && s in rooms[n] && n != s
  }

  /** The exit notice `disconnecting` sends to room `n`. */
  function ExitNotice(rooms: Rooms, n: string, s: SocketId): (d: Delivery)
    ensures d.event == ToExitRoom(s) && s !in d.recipients
    ensures forall t :: t in d.recipients <==> t in Members(rooms, n) && t != s
  {
    Delivery(Members(rooms, n) - {s}, ToExitRoom(s))
  }

  /** `d` is the exit notice `disconnecting` sends to one of the rooms of `NoticeRooms`. */
  ghost predicate IsExitNotice(rooms: Rooms, s: SocketId, d: Delivery) {
    exists n :: n in NoticeRooms(rooms, s) && d == ExitNotice(rooms, n, s)
  }

  /** `notices` are the exit notices of `disconnecting`, one per room of
      `NoticeRooms`, sent in the room order `order`, each room once. */
  ghost predicate NoticesInOrder(rooms: Rooms, s: SocketId, notices: seq<Delivery>, order: seq<string>) {
    |order| == |notices| &&
    (forall i, j :: 0 <= i < j < |order| ==> order[i] != order[j]) &&
    (forall n :: n in NoticeRooms(rooms, s) <==> n in order) &&
    (forall i :: 0 <= i < |notices| ==> notices[i] == ExitNotice(rooms, order[i], s))
  }

  /** `Array.prototype.findIndex` on the player identifier. */
  function FindIndex(s: seq<PlayerRecord>, id: SocketId): (r: int)
    ensures -1 <= r < |s|
    ensures 0 <= r ==> s[r].id == id && forall j :: 0 <= j < r ==> s[j].id != id
    ensures r == -1 <==> !HasId(s, id)
  {
    if s == [] then -1
    else if s[0].id == id then 0
    else
      var k := FindIndex(s[1..], id);
      assert HasId(s, id) ==> HasId(s[1..], id) by {
        if HasId(s, id) {
          var i :| 0 <= i < |s| && s[i].id == id;
          assert s[1..][i - 1].id == id;
        }
      }
      if k == -1 then -1 else k + 1
  }

  /** `Array.prototype.splice(start, 1)`: a negative start counts back from the end. */
  function SpliceOne<T>(s: seq<T>, start: int): (r: seq<T>)
    ensures start >= |s| ==> r == s
    ensures 0 <= start < |s| ==> |r| == |s| - 1 && r[..start] == s[..start] && r[start..] == s[start + 1..]
    ensures -|s| <= start < 0 ==> |r| == |s| - 1 && r[..|s| + start] == s[..|s| + start] && r[|s| + start..] == s[|s| + start + 1..]
    ensures start < -|s| && s != [] ==> r == s[1..]
  {
    var k := if start < 0 then (if |s| + start < 0 then 0 else |s| + start)
             else (if start > |s| then |s| else start);
    if k < |s| then s[..k] + s[k + 1..] else s
  }

  /** The list after `disconnecting`, exactly as the handler computes it. */
  function RemoveSender(s: seq<PlayerRecord>, id: SocketId): (r: seq<PlayerRecord>)
    ensures s == [] ==> r == []
    ensures HasId(s, id) ==> |r| == |s| - 1 && r == s[..FindIndex(s, id)] + s[FindIndex(s, id) + 1..]
    ensures !HasId(s, id) && s != [] ==> r == s[..|s| - 1]
  {
    SpliceOne(s, FindIndex(s, id))
  }

  /** The entry at `i` with its position replaced; nothing else differs. */
  function MoveTo(s: seq<PlayerRecord>, i: nat, x: real, y: real): (r: seq<PlayerRecord>)
    requires i < |s|
    ensures |r| == |s| && Ids(r) == Ids(s)
    ensures r[i].id == s[i].id && r[i].name == s[i].name && r[i].x == x && r[i].y == y
    ensures forall j :: 0 <= j < |s| && j != i ==> r[j] == s[j]
  {
    s[i := s[i].(x := x, y := y)]
  }

  /** The event a relay handler forwards for a client event, or None for
      the events that are not relayed one-to-one. */
  function Forwarded(sender: SocketId, ev: ClientEvent): (r: Option<ServerEvent>)
    ensures r.Some? ==> !r.value.PlayersData? && r.value.playerId == sender
  {
    match ev
    case RoomFull(_) => Some(RoomFullNotice(sender))
    case ConnectResponse(_, room) => Some(ConnectAccepted(sender, room))
    case Offer(sdp, _) => Some(OfferRelayed(sdp, sender))
    case Answer(sdp, _) => Some(AnswerRelayed(sdp, sender))
    case IceCandidate(c, _) => Some(IceCandidateRelayed(c, sender))
    case _ => None
  }

  /** The receiver's view of a relayed event turned back into the request
      that produced it, given the recipient it was addressed to. */
  function Readdressed(e: ServerEvent, to: SocketId): (r: Option<ClientEvent>)
    ensures r.Some? ==> (r.value.RoomFull? || r.value.ConnectResponse? || r.value.Offer? ||
                         r.value.Answer? || r.value.IceCandidate?) && r.value.playerId == to
  {
    match e
    case RoomFullNotice(_) => Some(RoomFull(to))
    case ConnectAccepted(_, room) => Some(ConnectResponse(to, room))
    case OfferRelayed(sdp, _) => Some(Offer(sdp, to))
    case AnswerRelayed(sdp, _) => Some(Answer(sdp, to))
    case IceCandidateRelayed(c, _) => Some(IceCandidate(c, to))
    case _ => None
  }

  /** A relayed event names the sender and carries the payload unchanged:
      readdressing it to the original recipient gives back the request. */
  lemma RelayPreservesPayload(sender: SocketId, ev: ClientEvent)
    ensures Forwarded(sender, ev).Some? <==>
              (ev.RoomFull? || ev.ConnectResponse? || ev.Offer? || ev.Answer? || ev.IceCandidate?)
    ensures Forwarded(sender, ev).Some? ==>
              Forwarded(sender, ev).value.playerId == sender &&
              Readdressed(Forwarded(sender, ev).value, ev.playerId) == Some(ev)
  {
  }

  /** Removing a registered sender from a list without duplicate ids is
      filtering it out: the others stay, in order. */
  lemma {:induction false} RemoveRegisteredSender(s: seq<PlayerRecord>, id: SocketId)
    requires UniqueIds(s) && HasId(s, id)
    ensures RemoveSender(s, id) == WithoutId(s, id)
    ensures |RemoveSender(s, id)| == |s| - 1
  {
    if s[0].id == id {
      RemoveAtHead(s, id);
    } else {
      UniqueTail(s);
      RemoveBehindHead(s, id);
      RemoveRegisteredSender(s[1..], id);
    }
  }

  /** A sender listed first, and nowhere else, is removed by both. */
  lemma RemoveAtHead(s: seq<PlayerRecord>, id: SocketId)
    requires UniqueIds(s) && s != [] && s[0].id == id
    ensures RemoveSender(s, id) == WithoutId(s, id) == s[1..]
  {
    var t := s[1..];
    forall i | 0 <= i < |t| ensures t[i].id != id {
      assert t[i] == s[i + 1];
    }
    WithoutAbsent(t, id);
  }

  /** A sender listed after the head: both removals keep the head and
      work on the tail. */
  lemma RemoveBehindHead(s: seq<PlayerRecord>, id: SocketId)
    requires HasId(s, id) && s[0].id != id
    ensures HasId(s[1..], id)
    ensures RemoveSender(s, id) == [s[0]] + RemoveSender(s[1..], id)
    ensures WithoutId(s, id) == [s[0]] + WithoutId(s[1..], id)
  {
    var k := FindIndex(s, id);
    var t := s[1..];
    assert HasId(t, id) by { assert t[k - 1] == s[k]; }
    assert FindIndex(t, id) == k - 1;
    assert RemoveSender(s, id) == SpliceOne(s, k) == s[..k] + s[k + 1..];
    assert RemoveSender(t, id) == SpliceOne(t, k - 1) == t[..k - 1] + t[k..];
    DropAtTail(s, k);
  }

  /** As written, a socket that never registered removes the LAST player
      when it disconnects: findIndex gives -1 and splice(-1, 1) counts back
      from the end. */
  lemma DisconnectUnregisteredRemovesLast(s: seq<PlayerRecord>, id: SocketId)
    requires !HasId(s, id) && s != []
    ensures RemoveSender(s, id) == s[..|s| - 1]
    ensures RemoveSender(s, id) != WithoutId(s, id)
  {
    WithoutAbsent(s, id);
  }

  /** Any single splice keeps identifiers unique. */
  lemma SpliceKeepsUnique(s: seq<PlayerRecord>, start: int)
    requires UniqueIds(s)
    ensures UniqueIds(SpliceOne(s, start))
  {
    var k := if start < 0 then (if |s| + start < 0 then 0 else |s| + start)
             else (if start > |s| then |s| else start);
    if k < |s| {
      var r := s[..k] + s[k + 1..];
      DropAt(s, k, r);
      forall i, j | 0 <= i < j < |r| ensures r[i].id != r[j].id {
        var i' := if i < k then i else i + 1;
        var j' := if j < k then j else j + 1;
        assert r[i] == s[i'] && r[j] == s[j'];
      }
    }
  }

  /** Dropping the element at `k` shifts the later ones down by one. */
  lemma DropAt<T>(s: seq<T>, k: nat, r: seq<T>)
    requires k < |s| && r == s[..k] + s[k + 1..]
    ensures |r| == |s| - 1
    ensures forall i :: 0 <= i < k ==> r[i] == s[i]
    ensures forall i :: k <= i < |r| ==> r[i] == s[i + 1]
  {
  }

  /** Dropping a later element commutes with taking off the head. */
  lemma DropAtTail<T>(s: seq<T>, k: nat)
    requires 0 < k < |s|
    ensures s[..k] + s[k + 1..] == [s[0]] + (s[1..][..k - 1] + s[1..][k..])
  {
    assert s[1..][..k - 1] == s[1..k] && s[1..][k..] == s[k + 1..];
    assert s[..k] == [s[0]] + s[1..k];
  }

  /** The tail of a list without duplicate ids has none either. */
  lemma UniqueTail(s: seq<PlayerRecord>)
    requires UniqueIds(s) && s != []
    ensures UniqueIds(s[1..])
  {
    var t := s[1..];
    forall i, j | 0 <= i < j < |t| ensures t[i].id != t[j].id {
      assert t[i] == s[i + 1] && t[j] == s[j + 1];
    }
  }

  class Server {
    /** `inMemoryPlayers`. */
    var players: seq<PlayerRecord>
    /** The transport's room table; every socket sits in the room named by its id. */
    var rooms: Rooms
    /** Connected sockets, the audience of `io.emit`. */
    var sockets: set<SocketId>
    /** Every delivery made so far, in emit order. */
    var outbox: seq<Delivery>

    ghost predicate Valid()
      reads this
    {
      UniqueIds(players)
    }

    constructor ()
      ensures Valid()
      ensures players == [] && rooms == map[] && sockets == {} && outbox == []
    {
      players, rooms, sockets, outbox := [], map[], {}, [];
    }

    /** A new connection: the transport puts the socket in its own-id room. */
    method OnConnection(sid: SocketId)
      requires Valid()
      modifies this
      ensures Valid()
      ensures sockets == old(sockets) + {sid} && rooms == Join(old(rooms), sid, sid)
      ensures players == old(players) && outbox == old(outbox)
    {
      sockets := sockets + {sid};
      rooms := Join(rooms, sid, sid);
    }

    /** `register`: appends the sender once and broadcasts the whole list. */
    method Register(sender: SocketId, name: string, x: real, y: real)
      requires Valid()
      modifies this
      ensures Valid()
      ensures rooms == old(rooms) && sockets == old(sockets)
      ensures HasId(old(players), sender) ==> players == old(players) && outbox == old(outbox)
      ensures !HasId(old(players), sender) ==>
                players == old(players) + [PlayerRecord(sender, name, x, y)] &&
                outbox == old(outbox) + [Delivery(sockets, PlayersData(players))]
    {
      if FindIndex(players, sender) != -1 {
        return;
      }
      RegisterKeepsUnique(players, PlayerRecord(sender, name, x, y));
      players := players + [PlayerRecord(sender, name, x, y)];
      outbox := outbox + [Delivery(sockets, PlayersData(players))];
    }

    /** `move`: overwrites the sender's coordinates and broadcasts. */
    method Move(sender: SocketId, x: real, y: real) returns (outcome: MoveOutcome)
      requires Valid()
      modifies this
      ensures Valid()
      ensures rooms == old(rooms) && sockets == old(sockets)
      ensures outcome.Moved? <==> HasId(old(players), sender)
      ensures outcome.Moved? ==>
                players == MoveTo(old(players), FindIndex(old(players), sender), x, y) &&
                outbox == old(outbox) + [Delivery(sockets, PlayersData(players))]
      ensures outcome.UnregisteredSender? ==> players == old(players) && outbox == old(outbox)
    {
      var i := FindIndex(players, sender);
      if i == -1 {
        return UnregisteredSender;
      }
      players := MoveTo(players, i, x, y);
      assert Ids(players) == Ids(old(players));
      assert forall j :: 0 <= j < |players| ==> players[j].id == Ids(players)[j];
      outbox := outbox + [Delivery(sockets, PlayersData(players))];
      outcome := Moved;
    }

    /** `connectToPlayer`: forwards a connect request only to a registered target. */
    method ConnectToPlayer(sender: SocketId, target: SocketId)
      requires Valid()
      modifies this
      ensures Valid()
      ensures players == old(players) && rooms == old(rooms) && sockets == old(sockets)
      ensures outbox == if HasId(players, target)
                        then old(outbox) + [Delivery(Members(rooms, target), ConnectRequest(sender))]
                        else old(outbox)
    {
      if FindIndex(players, target) == -1 {
        return;
      }
      outbox := outbox + [Delivery(Members(rooms, target), ConnectRequest(sender))];
    }

    /** `roomFull`, `connectResponse`, `offer`, `answer`, `iceCandidate`:
        forward to the named recipient, tagged with the sender. */
    method Relay(sender: SocketId, ev: ClientEvent)
      requires Valid()
      requires Forwarded(sender, ev).Some?
      modifies this
      ensures Valid()
      ensures players == old(players) && rooms == old(rooms) && sockets == old(sockets)
      ensures outbox == old(outbox) + [Delivery(Members(rooms, ev.playerId), Forwarded(sender, ev).value)]
    {
      outbox := outbox + [Delivery(Members(rooms, ev.playerId), Forwarded(sender, ev).value)];
    }

    /** `createRoom`: membership only, nobody is told. */
    method CreateRoom(sender: SocketId, room: RoomId)
      requires Valid()
      modifies this
      ensures Valid()
      ensures rooms == Join(old(rooms), room, sender)
      ensures players == old(players) && sockets == old(sockets) && outbox == old(outbox)
    {
      rooms := Join(rooms, room, sender);
    }

    /** `joinRoom`: join, then tell every other member. */
    method JoinRoom(sender: SocketId, room: RoomId)
      requires Valid()
      modifies this
      ensures Valid()
      ensures rooms == Join(old(rooms), room, sender)
      ensures players == old(players) && sockets == old(sockets)
      ensures outbox == old(outbox) + [Delivery(Members(old(rooms), room) - {sender}, PlayerJoined(sender))]
      ensures sender !in outbox[|outbox| - 1].recipients
    {
      rooms := Join(rooms, room, sender);
      assert Members(rooms, room) - {sender} == Members(old(rooms), room) - {sender};
      outbox := outbox + [Delivery(Members(rooms, room) - {sender}, PlayerJoined(sender))];
    }

    /** `exitRoom`: `io.to` reaches every member, the leaver included; then leave. */
    method ExitRoom(sender: SocketId, room: RoomId)
      requires Valid()
      modifies this
      ensures Valid()
      ensures outbox == old(outbox) + [Delivery(Members(old(rooms), room), ToExitRoom(sender))]
      ensures sender in Members(old(rooms), room) ==> sender in outbox[|outbox| - 1].recipients
      ensures rooms == Leave(old(rooms), room, sender)
      ensures sender !in Members(rooms, room)
      ensures players == old(players) && sockets == old(sockets)
    {
      outbox := outbox + [Delivery(Members(rooms, room), ToExitRoom(sender))];
      rooms := Leave(rooms, room, sender);
    }

    /** `disconnecting`: an exit notice to every other room of the socket
        (`socket.to`, so never to the leaver), removal from the list and a
        broadcast; afterwards the transport drops the socket everywhere.
        `order` is the order in which the rooms were visited. */
    method Disconnecting(sender: SocketId) returns (ghost order: seq<string>)
      requires Valid()
      modifies this
      ensures Valid()
      ensures |outbox| == |old(outbox)| + |NoticeRooms(old(rooms), sender)| + 1
      ensures outbox[..|old(outbox)|] == old(outbox)
      ensures forall i :: |old(outbox)| <= i < |outbox| - 1 ==>
                IsExitNotice(old(rooms), sender, outbox[i]) && sender !in outbox[i].recipients
      ensures forall n :: n in NoticeRooms(old(rooms), sender) ==>
                ExitNotice(old(rooms), n, sender) in outbox[|old(outbox)|..]
      ensures NoticesInOrder(old(rooms), sender, outbox[|old(outbox)|..|outbox| - 1], order)
      ensures players == RemoveSender(old(players), sender)
      ensures outbox[|outbox| - 1] == Delivery(old(sockets), PlayersData(players))
      ensures rooms == LeaveAll(old(rooms), sender) && sockets == old(sockets) - {sender}
    {
      var notices;
      notices, order := ExitNotices(rooms, sender);
      SpliceKeepsUnique(players, FindIndex(players, sender));
      var left := SpliceOne(players, FindIndex(players, sender));
      var out := outbox + notices + [Delivery(sockets, PlayersData(left))];
      ExitNoticesSent(rooms, sender, outbox, notices, order, out);
      outbox := out;
      players := left;
      rooms := LeaveAll(rooms, sender);
      sockets := sockets - {sender};
    }

  }

  /** The `socket.rooms.forEach` loop of `disconnecting`: one exit notice
      per room of `NoticeRooms`, never addressed to itself. */
  method ExitNotices(rooms: Rooms, sender: SocketId) returns (notices: seq<Delivery>, ghost order: seq<string>)
    ensures |notices| == |NoticeRooms(rooms, sender)|
    ensures |order| == |notices|
    ensures forall i, j :: 0 <= i < j < |order| ==> order[i] != order[j]
    ensures forall n :: n in NoticeRooms(rooms, sender) <==> n in order
    ensures forall i :: 0 <= i < |notices| ==> notices[i] == ExitNotice(rooms, order[i], sender)
    ensures forall i :: 0 <= i < |notices| ==>
              IsExitNotice(rooms, sender, notices[i]) && sender !in notices[i].recipients
    ensures forall n :: n in NoticeRooms(rooms, sender) ==> ExitNotice(rooms, n, sender) in notices
  {
    notices := [];
    var all := NoticeRooms(rooms, sender);
    var todo := all;
    order := [];
    while todo != {}
      invariant todo <= all
      invariant |order| == |notices| && |todo| + |notices| == |all|
      invariant forall i, j :: 0 <= i < j < |order| ==> order[i] != order[j]
      invariant forall i :: 0 <= i < |order| ==>
                  order[i] in all && order[i] !in todo && notices[i] == ExitNotice(rooms, order[i], sender)
      invariant forall n :: n in all && n !in todo ==> n in order
      decreases todo
    {
      var n :| n in todo;
      notices := notices + [ExitNotice(rooms, n, sender)];
      order := order + [n];
      todo := todo - {n};
    }
    assert NoticesInOrder(rooms, sender, notices, order);
    NoticesCoverRooms(rooms, sender, notices, order);
  }

  /** Notices sent in room order are exit notices of those rooms, never
      addressed to the leaver, and every room has its notice among them. */
  lemma NoticesCoverRooms(rooms: Rooms, s: SocketId, notices: seq<Delivery>, order: seq<string>)
    requires NoticesInOrder(rooms, s, notices, order)
    ensures forall i :: 0 <= i < |notices| ==> IsExitNotice(rooms, s, notices[i]) && s !in notices[i].recipients
    ensures forall n :: n in NoticeRooms(rooms, s) ==> ExitNotice(rooms, n, s) in notices
  {
    forall i | 0 <= i < |notices| ensures IsExitNotice(rooms, s, notices[i]) {
      assert order[i] in order;
    }
    forall n | n in NoticeRooms(rooms, s) ensures ExitNotice(rooms, n, s) in notices {
      var k :| 0 <= k < |order| && order[k] == n;
      assert notices[k] == ExitNotice(rooms, n, s);
    }
  }

  /** The outbox after `disconnecting`: the earlier deliveries, then the
      exit notices in room order, then one last delivery. */
  lemma ExitNoticesSent(rooms: Rooms, s: SocketId, before: seq<Delivery>, notices: seq<Delivery>,
                        order: seq<string>, out: seq<Delivery>)
    requires NoticesInOrder(rooms, s, notices, order) && |notices| == |NoticeRooms(rooms, s)|
    requires |out| == |before| + |notices| + 1 && out[..|out| - 1] == before + notices
    ensures |out| == |before| + |NoticeRooms(rooms, s)| + 1
    ensures out[..|before|] == before
    ensures forall i :: |before| <= i < |out| - 1 ==>
              IsExitNotice(rooms, s, out[i]) && s !in out[i].recipients
    ensures forall n :: n in NoticeRooms(rooms, s) ==> ExitNotice(rooms, n, s) in out[|before|..]
    ensures NoticesInOrder(rooms, s, out[|before|..|out| - 1], order)
  {
    assert out[..|before|] == (before + notices)[..|before|] == before;
    assert out[|before|..|out| - 1] == notices;
    NoticesCoverRooms(rooms, s, notices, order);
    forall i | |before| <= i < |out| - 1
      ensures IsExitNotice(rooms, s, out[i]) && s !in out[i].recipients
    {
      assert out[i] == notices[i - |before|];
    }
    forall n | n in NoticeRooms(rooms, s) ensures ExitNotice(rooms, n, s) in out[|before|..] {
      assert out[|before|..] == notices + [out[|out| - 1]];
    }
  }

  /** Identifiers stay unique whatever sequence of `register`, `move` and
      `disconnecting` the server handles: each step above keeps Valid().
      Stated here on the list operations the handlers use. */
  lemma {:induction false} RegisterKeepsUnique(s: seq<PlayerRecord>, p: PlayerRecord)
    requires UniqueIds(s) && !HasId(s, p.id)
    ensures UniqueIds(s + [p])
  {
    var r := s + [p];
    forall i, j | 0 <= i < j < |r| ensures r[i].id != r[j].id {
      if j == |s| {
        assert r[i] == s[i];
      }
    }
  }
}
